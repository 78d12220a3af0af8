# crosszones zone layouts, modelled in Dafny

crosszones is a desktop window manager. A user draws a *zone layout*:
numbered rectangles over the screen, each given in percent of the
screen (`x`, `y`, `width`, `height` in 0..100). Dragging a window onto a
zone with a modifier key held snaps the window to that zone. Keyboard
hotkeys snap the frontmost window to fixed places such as halves,
thirds, quarters or sixths.

This project models the core of that system and proves properties of
the model:

- **Zone editor geometry** (`Zones`, `ZoneSnap`, `ZoneOperations`,
  `ZoneResize`, `ZoneDrag`, `ZOrder`). It covers:
  - snap points, and snapping of edges to within 0.2 with a 5% minimum size;
  - the overlap nudge;
  - split at the pointer, merge into the bounding box followed by a renumbering in reading order, and grow-to-neighbours;
  - resize by one of eight handles;
  - drag with clamping and merge-target detection;
  - the z-index that stacks smaller zones above larger ones.
- **Editor screens** (`EditorScreen`, `LegacyEditor`). These are the
  state of the two full-screen editors. They cover key handling, click
  dispatch (split, grow or consume the drag latch), the merge dialog,
  and hover.
- **Preview and overlay** (`PreviewCanvas`, `ZoneOverlay`, `ZoneList`).
  They cover:
  - the preview's aspect ratio from the zones' bounding box or the screen;
  - the zones it draws and their labels;
  - the drag overlay's hovered zone and z-indices;
  - adding and deleting zones in the list editor.
- **Actions and hotkeys** (`LayoutActions`, `WindowRects`,
  `HotkeyPayload`, `HotkeyRecording`, `KeyMapping`). They cover:
  - the snapping actions' kebab-case names and their JSON payload, in both directions, with the JSON string escapes serde decodes in a name before looking it up;
  - the window rectangle each action produces, using Rust's truncating `i32` division;
  - how a hotkey is recorded, and how it is displayed on macOS and elsewhere.
- **Back end state** (`LayoutStore`, `WindowStates`, `DragDetector`,
  `ScreenSelection`). They cover:
  - the store file of layouts and the active layout id;
  - the window-state map;
  - the macOS drag detector's modifier latch and drop handling;
  - the choice of the display that holds the largest share of a window.

Percentages are `real`. Clocks, the DOM, Tauri commands and system
queries are not modelled as such. Their results are parameters: the
container rectangle, a freshly generated zone id, the display list, the
window frame, the configured modifier key, and whether there is a
frontmost window. `Wrappers`, `Sorting` and `Strings` hold the Option
and Result types, a stable insertion sort, and the JavaScript string
functions the source uses (`split`, `join`, `toLowerCase`, `replace`).

Two properties of snapping are worth knowing because they are easy to
assume the other way:

- `snapToPoint` returns the *first* point within the threshold in
  ascending order, which is the least such point and not always the
  nearest one (`ZoneSnap.FirstWithinIsLeast`, `ZoneSnap.SnapIsNotNearest`).
- Snapping is not idempotent: a second pass can move an edge that the
  first pass already snapped (`ZoneSnap.SnapIsNotIdempotent`).

## Model

| member | source | states |
|---|---|---|
| Zones.ClampTo | src/features/ZoneLayouts/useZoneDrag.ts:84-85 | the clamped value lies in 0..hi when hi >= 0, and equals v when v already does |
| Zones.FindZone | src/components/ZoneLayouts/useZoneOperations.ts:144 | the result is the first zone carrying the id; none exactly when no zone has it |
| Zones.RemoveId | src/components/ZoneLayouts/useZoneOperations.ts:82 | the filter keeps exactly the zones with another id, and the result never carries the id |
| Zones.MaxNumber | src/components/ZoneLayouts/useZoneOperations.ts:30 | the largest number of a non-empty list: no zone exceeds it and one zone has it |
| Zones.ReplaceId | src/components/ZoneLayouts/useZoneOperations.ts:215-217 | every zone carrying the id becomes the new zone; the others stay, position by position |
| Zones.FirstHit | src/features/ZoneLayouts/useZoneDrag.ts:110-118 | the index of the first zone, other than the skipped id, whose closed rectangle holds the point; none exactly when no such zone exists |
| Zones.RemoveIdKeepsDistinct | src/components/ZoneLayouts/useZoneOperations.ts:82 | filtering keeps ids unique and numbers distinct |
| Zones.RemoveIdIndices | src/components/ZoneLayouts/useZoneOperations.ts:82 | the filter keeps the surviving zones in their original relative order (strictly increasing source indices) |
| Zones.RemoveIdAbsent | src/components/ZoneLayouts/useZoneOperations.ts:82 | filtering an id no zone carries returns the list unchanged |
| Zones.RemoveIdCount | src/components/ZoneLayouts/useZoneOperations.ts:82 | with unique ids, filtering a present id removes exactly one zone |
| Zones.MoveTo | src/components/ZoneLayouts/useZoneOperations.ts:125-131 | the zones carrying the id move to the saved position with size, id and number kept; the others stay |
| Zones.MoveToUndo | src/components/ZoneLayouts/useZoneOperations.ts:124-132 | moving zones and then moving them back to their previous position restores the list |
| Zones.MoveToAbsent | src/components/ZoneLayouts/useZoneOperations.ts:124-132 | restoring an id no zone carries changes nothing |
| Sorting.InsertBy | src/components/ZoneLayouts/useZoneOperations.ts:112-115 | inserting into a sorted list adds exactly the element |
| Sorting.InsertBySorted | src/components/ZoneLayouts/useZoneOperations.ts:112-115 | inserting into a sorted list under a total preorder keeps it sorted |
| Sorting.SortBy | src/components/ZoneLayouts/useZoneOperations.ts:112-115 | the sorted list is a permutation of the input |
| Sorting.SortBySorted | src/components/ZoneLayouts/useZoneOperations.ts:112-115 | under a total preorder the result is sorted by the comparator |
| Sorting.SortByMembers | src/components/ZoneLayouts/useZoneOperations.ts:112-115 | sorting neither loses nor invents elements |
| ZoneSnap.EdgesMembers | src/components/ZoneLayouts/useZoneSnap.ts:17-27 | a value is an x (y) edge exactly when it is the left/right (top/bottom) edge of a zone whose id is not excluded |
| ZoneSnap.InsertPointMembers | src/components/ZoneLayouts/useZoneSnap.ts:22-25 | adding a point to the set adds exactly that point |
| ZoneSnap.InsertPointSorted | src/components/ZoneLayouts/useZoneSnap.ts:30-31 | the kept set stays ascending and free of duplicates |
| ZoneSnap.SnapPointsOfSorted | src/components/ZoneLayouts/useZoneSnap.ts:30-31 | both point lists come out ascending and without duplicates |
| ZoneSnap.SnapPointsOfMembers | src/components/ZoneLayouts/useZoneSnap.ts:13-33 | the points are exactly 0, 100 and the edges of every zone other than the excluded one |
| ZoneSnap.GetSnapPoints | src/components/ZoneLayouts/useZoneSnap.ts:13-33 | the loop computes the snap points of the zone list |
| ZoneSnap.FirstWithin | src/components/ZoneLayouts/useZoneSnap.ts:38-46 | the result is `value` or a point within the threshold of it; the first such point in list order |
| ZoneSnap.FirstWithinIsLeast | src/components/ZoneLayouts/useZoneSnap.ts:38-46 | over ascending points, the snapped value is the smallest point within the threshold |
| ZoneSnap.SnapIsNotNearest | src/components/ZoneLayouts/useZoneSnap.ts:38-46 | with points 10.0 and 10.1, the value 10.15 snaps to 10.0 although 10.1 is nearer |
| ZoneSnap.SnapToPoint | src/components/ZoneLayouts/useZoneSnap.ts:38-46 | the early-return loop yields the first point within the threshold, or the value itself |
| ZoneSnap.SnapZoneEdges | src/components/ZoneLayouts/useZoneSnap.ts:51-96 | the snapped zone keeps id and number, is at least 5 wide and high, and its position is clamped into the canvas |
| ZoneSnap.SnapKeepsSnappedEdges | src/components/ZoneLayouts/useZoneSnap.ts:56-96 | when the snapped edges are at least 5 apart and inside the canvas, the result has exactly those edges |
| ZoneSnap.SnapFloorKeepsFarEdges | src/components/ZoneLayouts/useZoneSnap.ts:69-83 | when the width is raised to 5, the snapped right edge is kept as long as x stays non-negative |
| ZoneSnap.SnappedEdgesNearSnapPoints | src/components/ZoneLayouts/useZoneSnap.ts:56-60 | each snapped edge is the original edge or a snap point within 0.2 of it |
| ZoneSnap.ZonesOverlapSymmetric | src/components/ZoneLayouts/useZoneSnap.ts:101-108 | the overlap test is symmetric |
| ZoneSnap.SharedEdgeIsNotOverlap | src/components/ZoneLayouts/useZoneSnap.ts:101-108 | zones that only touch along an edge do not overlap (strict inequalities) |
| ZoneSnap.NudgeX | src/components/ZoneLayouts/useZoneSnap.ts:124-134 | with d_right the distance from the left edge to the sibling's right edge and d_left from the right edge to the sibling's left edge: the left edge moves to the sibling's right edge when d_right < d_left and d_right < 0.2; otherwise the right edge moves to the sibling's left edge when d_left < 0.2; otherwise x stays |
| ZoneSnap.NudgeY | src/components/ZoneLayouts/useZoneSnap.ts:136-146 | the same three cases on the vertical axis, with the distances to the sibling's bottom and top edges |
| ZoneSnap.ResolveAgainst | src/components/ZoneLayouts/useZoneSnap.ts:119-150 | one sibling's pass: nothing changes without overlap; otherwise both nudges apply, followed by the clamp; size, id and number are kept |
| ZoneSnap.ResolveOverlaps | src/components/ZoneLayouts/useZoneSnap.ts:113-155 | the candidate resolved against the siblings in list order keeps its size, id and number |
| ZoneSnap.ResolveOverlapsInCanvas | src/components/ZoneLayouts/useZoneSnap.ts:149-150 | a candidate inside the canvas stays inside it |
| ZoneSnap.ResolveOverlapsNoOverlap | src/components/ZoneLayouts/useZoneSnap.ts:113-155 | a candidate overlapping no sibling is returned unchanged |
| ZoneSnap.PreventOverlaps | src/components/ZoneLayouts/useZoneSnap.ts:113-155 | the loop computes the resolution against every sibling, skipping the excluded id |
| ZoneSnap.IdempotenceSnapPoints | src/components/ZoneLayouts/useZoneSnap.ts:13-33 | the witness layout's x snap points are 0, 10.0, 10.1, 30.1, 100 and its y snap points 0, 100 |
| ZoneSnap.SnapOnceExample | src/components/ZoneLayouts/useZoneSnap.ts:51-96 | a left edge at 10.25 snaps to 10.1, the first snap point within 0.2 (10.0 is 0.25 away) |
| ZoneSnap.SnapTwiceExample | src/components/ZoneLayouts/useZoneSnap.ts:51-96 | snapping that result again moves it to 10.0 |
| ZoneSnap.SnapIsNotIdempotent | src/components/ZoneLayouts/useZoneSnap.ts:51-96 | snapping twice can differ from snapping once |
| ZoneOperations.SplitHalves | src/components/ZoneLayouts/useZoneOperations.ts:32-79 | a cut strictly inside the zone yields two halves; the first keeps id and number, the second takes the fresh id and next number; an edge cut yields none |
| ZoneOperations.SplitHalvesTile | src/components/ZoneLayouts/useZoneOperations.ts:39-78 | the two halves' areas add up to the zone's area, they abut without overlap, and their union is the zone |
| ZoneOperations.SplitAt | src/components/ZoneLayouts/useZoneOperations.ts:23-84 | a missing zone or an edge cut leaves the list; an accepted split is exactly the other zones in order followed by the two halves `SplitOf` gives, ids unique and numbers distinct |
| ZoneOperations.SplitOf | src/components/ZoneLayouts/useZoneOperations.ts:29-79 | two halves exactly when the zone exists and the cut lies strictly inside it |
| ZoneOperations.SplitAtTiles | src/components/ZoneLayouts/useZoneOperations.ts:39-81 | after an accepted split the two new zones' areas add up to the split zone's area, and the second half starts at the cut (x in horizontal mode, y in vertical mode) |
| ZoneOperations.SplitZones | src/components/ZoneLayouts/useZoneOperations.ts:23-84 | without a container nothing changes; otherwise the pointer converted to percent is split at |
| ZoneOperations.AppendKeepsUnique | src/components/ZoneLayouts/useZoneOperations.ts:82 | appending two zones with new, different ids keeps ids unique |
| ZoneOperations.SplitGrowsByOne | src/components/ZoneLayouts/useZoneOperations.ts:82 | with unique ids and a fresh id an accepted split adds exactly one zone and keeps ids unique |
| ZoneOperations.AppendKeepsNumbering | src/components/ZoneLayouts/useZoneOperations.ts:82 | appending two new, distinct numbers within 1..N keeps numbering 1..N |
| ZoneOperations.SplitKeepsNumbering | src/components/ZoneLayouts/useZoneOperations.ts:30-82 | a split of a list numbered 1..N gives a list numbered 1..N+1 |
| ZoneOperations.SplitMidpointExample | src/components/ZoneLayouts/useZoneOperations.ts:32-54 | a full-canvas zone split at the container's middle yields two 50%-wide halves |
| ZoneOperations.MergedZone | src/components/ZoneLayouts/useZoneOperations.ts:99-106 | the union keeps the target's id and number and spans from the smaller near edges to the larger far edges |
| ZoneOperations.MergedZoneContainsBoth | src/components/ZoneLayouts/useZoneOperations.ts:99-106 | the union contains both zones |
| ZoneOperations.ReadingOrderTotal | src/components/ZoneLayouts/useZoneOperations.ts:112-115 | the y-then-x comparator is a total preorder |
| ZoneOperations.SortReading | src/components/ZoneLayouts/useZoneOperations.ts:112-115 | the sort is a permutation into reading order |
| ZoneOperations.Renumber | src/components/ZoneLayouts/useZoneOperations.ts:116 | each zone keeps everything but its number, which becomes its position plus one |
| ZoneOperations.MergeZones | src/components/ZoneLayouts/useZoneOperations.ts:86-120 | a merge fails only when a zone is missing; on success the list is numbered 1..N |
| ZoneOperations.RenumberKeepsOrder | src/components/ZoneLayouts/useZoneOperations.ts:116 | renumbering keeps reading order |
| ZoneOperations.RenumberMember | src/components/ZoneLayouts/useZoneOperations.ts:116 | a zone reappears in the renumbered list under its position's number |
| ZoneOperations.SortRenumberKeepsAll | src/components/ZoneLayouts/useZoneOperations.ts:112-116 | every input zone appears in the sorted, renumbered list under some new number |
| ZoneOperations.SortRenumberAddsNothing | src/components/ZoneLayouts/useZoneOperations.ts:112-116 | every output zone comes from the input |
| ZoneOperations.SortRenumberSpec | src/components/ZoneLayouts/useZoneOperations.ts:112-116 | sort-then-renumber keeps every zone once, in reading order, numbered 1..N |
| ZoneOperations.MergeZonesShape | src/components/ZoneLayouts/useZoneOperations.ts:108-116 | the merge result is the sorted, renumbered list of the other zones plus the union |
| ZoneOperations.MergeZonesOrdered | src/components/ZoneLayouts/useZoneOperations.ts:108-116 | a merge result has one zone more than the filtered list, in reading order, numbered 1..N |
| ZoneOperations.MergeZonesKeeps | src/components/ZoneLayouts/useZoneOperations.ts:99-116 | the union and every untouched zone appear in the result under their new numbers |
| ZoneOperations.MergeZonesDropsDragged | src/components/ZoneLayouts/useZoneOperations.ts:108 | no zone of the result carries the dragged id, unless the dragged zone was its own target |
| ZoneOperations.MergeRemovesOne | src/components/ZoneLayouts/useZoneOperations.ts:108-109 | with unique ids and two different zones a merge removes exactly one zone |
| ZoneOperations.MergeThenRestoreIsNoOp | src/components/ZoneLayouts/useZoneOperations.ts:118-132 | the restore the confirm path runs afterwards finds no dragged zone and changes nothing |
| ZoneOperations.MergeAdjacentExample | src/components/ZoneLayouts/useZoneOperations.ts:94-106 | with the pre-drag position restored, a drop next to a zone gives their exact union |
| ZoneOperations.MergeSideBySide | src/components/ZoneLayouts/useZoneOperations.ts:99-106 | two zones side by side on one row merge into exactly the row segment from the left edge of the first to the right edge of the second |
| ZoneOperations.MergeDroppedExample | src/components/ZoneLayouts/useZoneOperations.ts:99-106 | without that restore the union would be taken around the drop position |
| ZoneOperations.GrowLimitsNearest | src/components/ZoneLayouts/useZoneOperations.ts:156-197 | each limit is the canvas edge or the facing edge of the nearest sibling blocking that way, and no blocking sibling lies beyond it |
| ZoneOperations.GrowLimitsEnclose | src/components/ZoneLayouts/useZoneOperations.ts:156-197 | for a zone inside the canvas the limits enclose it |
| ZoneOperations.Expanded | src/components/ZoneLayouts/useZoneOperations.ts:200-206 | the expansion keeps id and number and has the four limits as its edges |
| ZoneOperations.GrowResult | src/components/ZoneLayouts/useZoneOperations.ts:143-219 | a missing zone leaves the list; otherwise the zone expanded to its neighbour limits replaces every zone with the id, and the list is returned unchanged when the expansion equals the zone |
| ZoneOperations.GrowContainsOriginal | src/components/ZoneLayouts/useZoneOperations.ts:143-219 | a grown zone keeps id and number and contains its former rectangle |
| ZoneOperations.GrowSaturatedIsNoOp | src/components/ZoneLayouts/useZoneOperations.ts:208-218 | a zone already touching the canvas or a blocker on every side is left as it is |
| ZoneOperations.GrowSurroundedExample | src/components/ZoneLayouts/useZoneOperations.ts:143-219 | a zone ringed by four siblings grows to touch each of them |
| ZoneOperations.GrowLimits | src/components/ZoneLayouts/useZoneOperations.ts:156-197 | the scan over the siblings computes the limits of the nearest blockers |
| ZoneOperations.ZoneOperator.constructor | src/components/ZoneLayouts/useZoneOperations.ts:20-21 | no pending merge and the dialog closed |
| ZoneOperations.ZoneOperator.InitiateMerge | src/components/ZoneLayouts/useZoneOperations.ts:138-141 | records the pair and opens the dialog; the zones stay |
| ZoneOperations.ZoneOperator.MergeCancel | src/components/ZoneLayouts/useZoneOperations.ts:122-136 | with a pair and a recorded position the dragged zone moves back; the dialog closes and the pair clears |
| ZoneOperations.ZoneOperator.MergeConfirm | src/components/ZoneLayouts/useZoneOperations.ts:86-120 | without a pair nothing happens; otherwise the list becomes the merge result and the dialog closes |
| ZoneOperations.ZoneOperator.SplitZone | src/components/ZoneLayouts/useZoneOperations.ts:23-84 | the list becomes the split result |
| ZoneOperations.ZoneOperator.GrowZone | src/components/ZoneLayouts/useZoneOperations.ts:143-219 | the list becomes the grow result |
| ZoneResize.AxisResize | src/components/ZoneLayouts/useZoneResize.ts:70-137 | the span along one axis after the handle's move and the 5% floor is at least 5 wide; a floored near-edge move keeps the far edge |
| ZoneResize.Resized | src/components/ZoneLayouts/useZoneResize.ts:63-137 | the resized rectangle keeps id and number, is at least 5 by 5, and moves only the edges the handle names |
| ZoneResize.ResizedKeepsOtherAxis | src/components/ZoneLayouts/useZoneResize.ts:70-123 | a handle on one axis leaves the other axis of a zone at least 5 wide unchanged |
| ZoneResize.ResizeEastClampExample | src/components/ZoneLayouts/useZoneResize.ts:70-123 | pulling the E handle past the canvas edge stops at 100 |
| ZoneResize.ResizeWestFloorExample | src/components/ZoneLayouts/useZoneResize.ts:125-131 | pushing the W handle past the right edge floors the width at 5 and keeps the right edge |
| ZoneResize.MoveEdges | src/components/ZoneLayouts/useZoneResize.ts:63-123 | the switch computes the handle's edges before the floor |
| ZoneResize.ResizeRect | src/components/ZoneLayouts/useZoneResize.ts:63-137 | the switch plus the floor computes the resized rectangle |
| ZoneResize.ResizedZone | src/components/ZoneLayouts/useZoneResize.ts:139-154 | the resized zone takes the geometry, is snapped against the previous list, and is pushed off its siblings; id and number kept |
| ZoneResize.ResizedZones | src/components/ZoneLayouts/useZoneResize.ts:59-155 | only zones carrying the resizing id change, position by position |
| ZoneResize.ResizeAll | src/components/ZoneLayouts/useZoneResize.ts:59-155 | the mapper loop computes that list |
| ZoneResize.ResizeOne | src/components/ZoneLayouts/useZoneResize.ts:139-154 | the mapper body computes the resized zone |
| ZoneResize.MovedZones | src/components/ZoneLayouts/useZoneResize.ts:47-157 | unchanged while no resize is active or no container is mounted; otherwise the geometry from the snapshot and the delta since the start |
| ZoneResize.MoveZones | src/components/ZoneLayouts/useZoneResize.ts:47-157 | the handler computes that list |
| ZoneResize.ZoneResizer.constructor | src/components/ZoneLayouts/useZoneResize.ts:19-25 | no resize in progress |
| ZoneResize.ZoneResizer.Start | src/components/ZoneLayouts/useZoneResize.ts:27-45 | with a known zone and a container, records id, handle, pointer and a copy of the zone; otherwise nothing changes |
| ZoneResize.ZoneResizer.Move | src/components/ZoneLayouts/useZoneResize.ts:47-157 | the zone list becomes the moved list; the resize state is kept |
| ZoneResize.ZoneResizer.End | src/components/ZoneLayouts/useZoneResize.ts:159-163 | clears id, handle and snapshot; the zones stay |
| ZoneDrag.DraggedPosition | src/features/ZoneLayouts/useZoneDrag.ts:80-88 | the moved zone keeps its size, id and number and lies in the canvas when its size fits |
| ZoneDrag.DraggedZone | src/features/ZoneLayouts/useZoneDrag.ts:78-98 | clamp, optional snap, then overlap resolution; id and number kept |
| ZoneDrag.DraggedZones | src/features/ZoneLayouts/useZoneDrag.ts:76-100 | only zones carrying the dragged id change |
| ZoneDrag.DragWithoutSnapKeepsSizes | src/features/ZoneLayouts/useZoneDrag.ts:78-98 | without snapping a drag keeps every size and keeps a canvas-bound list inside the canvas |
| ZoneDrag.DragAll | src/features/ZoneLayouts/useZoneDrag.ts:76-100 | the mapper loop computes that list |
| ZoneDrag.DragStep | src/features/ZoneLayouts/useZoneDrag.ts:67-120 | one move of a drag: the zones moved by the delta since the last position, in percent, and the merge target under the pointer |
| ZoneDrag.MergeTargetOf | src/features/ZoneLayouts/useZoneDrag.ts:105-120 | the target is the first other zone holding the pointer, and never the dragged id |
| ZoneDrag.DragController.constructor | src/features/ZoneLayouts/useZoneDrag.ts:22-27 | nothing dragged and the latch clear |
| ZoneDrag.DragController.MouseDown | src/features/ZoneLayouts/useZoneDrag.ts:29-51 | ignored on a button; otherwise records the position, resets the latch and starts the drag |
| ZoneDrag.DragController.MouseMove | src/features/ZoneLayouts/useZoneDrag.ts:53-121 | sets the latch beyond 5 px, moves the dragged zone by the incremental delta, records the merge target |
| ZoneDrag.DragController.MouseUp | src/features/ZoneLayouts/useZoneDrag.ts:123-136 | requests the merge when a target and a callback exist, otherwise clears the drag; the latch survives |
| ZoneDrag.DragController.ResetDrag | src/features/ZoneLayouts/useZoneDrag.ts:149-156 | clears the drag, the latch and the press position |
| ZoneDrag.DragController.HasJustDragged | src/features/ZoneLayouts/useZoneDrag.ts:158-160 | returns the latch and changes nothing |
| ZoneDrag.DragController.ClearDragFlag | src/features/ZoneLayouts/useZoneDrag.ts:162-165 | clears the latch and the press position only |
| ZoneDrag.LegacyDragController.constructor | src/components/ZoneLayouts/useZoneDrag.ts:20-23 | nothing dragged |
| ZoneDrag.LegacyDragController.MouseDown | src/components/ZoneLayouts/useZoneDrag.ts:25-43 | ignored on a button; otherwise records the position and the drag start |
| ZoneDrag.LegacyDragController.MouseMove | src/components/ZoneLayouts/useZoneDrag.ts:45-100 | the move of the newer hook with snapping always on |
| ZoneDrag.LegacyDragController.MouseUp | src/components/ZoneLayouts/useZoneDrag.ts:102-113 | requests the merge or clears all four drag fields |
| ZoneDrag.LegacyDragController.ResetDrag | src/components/ZoneLayouts/useZoneDrag.ts:126-131 | clears all four drag fields |
| ZOrder.SmallerFirstTotal | src/features/ZoneLayouts/ZoneEditor/FullscreenZoneEditor.tsx:143 | the area comparator is a total preorder |
| ZOrder.SortByArea | src/features/ZoneLayouts/ZoneEditor/FullscreenZoneEditor.tsx:137-143 | a permutation of the zones in ascending area |
| ZOrder.ZIndices | src/features/ZoneLayouts/ZoneEditor/FullscreenZoneEditor.tsx:135-155 | the map is the z-index map of the area-sorted zones |
| ZOrder.FillZIndices | src/features/ZoneLayouts/ZoneEditor/FullscreenZoneEditor.tsx:147-152 | the loop computes that map |
| ZOrder.ZIndexKeys | src/features/ZoneLayouts/ZoneEditor/FullscreenZoneEditor.tsx:147-152 | the keys are exactly the zones' ids |
| ZOrder.ZIndexRange | src/features/ZoneLayouts/ZoneEditor/FullscreenZoneEditor.tsx:148-152 | every z-index lies in 101..100+N |
| ZOrder.ZIndexDistinct | src/features/ZoneLayouts/ZoneEditor/FullscreenZoneEditor.tsx:147-152 | different ids get different z-indices |
| ZOrder.ZIndexAt | src/features/ZoneLayouts/ZoneEditor/FullscreenZoneEditor.tsx:149-152 | with unique ids, the k-th sorted zone gets 100 + (N - k) |
| ZOrder.ZIndicesBounds | src/features/ZoneLayouts/ZoneEditor/FullscreenZoneEditor.tsx:135-155 | every zone of the editor has a z-index in range |
| ZOrder.StacksHigherIn | src/features/ZoneLayouts/ZoneEditor/FullscreenZoneEditor.tsx:149-152 | in the sorted list a strictly smaller zone gets a strictly higher z-index |
| ZOrder.SmallerAreaStacksHigher | src/features/ZoneLayouts/ZoneEditor/FullscreenZoneEditor.tsx:134-155 | with unique ids a strictly smaller zone stacks strictly above a larger one |
| EditorScreen.ClickDispatch | src/features/ZoneLayouts/ZoneEditor/FullscreenZoneEditor.tsx:86-112 | a click is ignored during a drag or resize or on a button, else consumes the drag latch, else grows with ctrl/meta or splits when hovered, each case exactly |
| EditorScreen.ClickNeverSplitsAfterDragOrWithModifier | src/features/ZoneLayouts/ZoneEditor/FullscreenZoneEditor.tsx:93-105 | a click right after a drag, or with ctrl/meta, never splits |
| EditorScreen.Screen.constructor | src/features/ZoneLayouts/ZoneEditor/FullscreenZoneEditor.tsx:11-55 | one zone list shared by the drag, operations and resize hooks; nothing hovered, dragged, resizing or pending |
| EditorScreen.Screen.LoadEditorData | src/features/ZoneLayouts/ZoneEditor/hooks/useZoneEditor.ts:49-66 | the sent zones, or one full-canvas zone numbered 1 when none were sent, become the list every hook sees |
| EditorScreen.Screen.KeyDown | src/features/ZoneLayouts/ZoneEditor/hooks/useZoneEditor.ts:90-96 | Escape closes with the current zones, Shift switches to vertical splits, other keys do nothing |
| EditorScreen.Screen.KeyUp | src/features/ZoneLayouts/ZoneEditor/hooks/useZoneEditor.ts:98-102 | releasing Shift switches back to horizontal splits |
| EditorScreen.Screen.MouseDown | src/features/ZoneLayouts/ZoneEditor/FullscreenZoneEditor.tsx:23-40 | a press goes to the drag hook: ignored on a button, otherwise the drag starts at the pointer with the zone's position recorded; the list is kept |
| EditorScreen.Screen.MouseMove | src/features/ZoneLayouts/ZoneEditor/FullscreenZoneEditor.tsx:23-40 | during a drag with a container the list becomes the dragged list and the merge target is the zone under the pointer; otherwise nothing moves; all hooks see the new list |
| EditorScreen.Screen.MouseUp | src/features/ZoneLayouts/ZoneEditor/FullscreenZoneEditor.tsx:21-60 | with a dragged zone and a target the merge dialog opens on the operations hook for that pair and the drag state stays; otherwise the drag state clears |
| EditorScreen.Screen.StartResize | src/features/ZoneLayouts/ZoneEditor/FullscreenZoneEditor.tsx:50-55 | a press on a handle of a known zone with a container records the resize; the list is kept |
| EditorScreen.Screen.ResizeMove | src/features/ZoneLayouts/ZoneEditor/FullscreenZoneEditor.tsx:50-55 | the list becomes the resized list, seen by all hooks; the resize, drag and merge state are kept |
| EditorScreen.Screen.EndResize | src/features/ZoneLayouts/ZoneEditor/FullscreenZoneEditor.tsx:50-55 | the resize state clears and the list is kept |
| EditorScreen.Screen.ZoneClick | src/features/ZoneLayouts/ZoneEditor/FullscreenZoneEditor.tsx:86-112 | the click's outcome is the dispatch; a consumed latch keeps the list, a grow gives the grow result, a split the split result at the pointer's x or y, and each new list reaches every hook |
| EditorScreen.Screen.MergeDialogConfirm | src/features/ZoneLayouts/ZoneEditor/FullscreenZoneEditor.tsx:211-214 | without a pair the list is kept; otherwise the list becomes the merge of the shared list at the recorded position, the dialog closes, and the drag resets |
| EditorScreen.Screen.MergeDialogCancel | src/features/ZoneLayouts/ZoneEditor/FullscreenZoneEditor.tsx:215-218 | with a pair and a recorded position the dragged zone moves back in the shared list; the dialog closes and the drag resets |
| EditorScreen.Screen.MergeDialogOpenChange | src/features/ZoneLayouts/ZoneEditor/FullscreenZoneEditor.tsx:205-210 | closing the dialog is a cancel on the shared list; opening it changes nothing |
| EditorScreen.Screen.ZoneMouseMove | src/features/ZoneLayouts/ZoneEditor/FullscreenZoneEditor.tsx:80-84 | the pointer is recorded unless a drag or resize is running |
| EditorScreen.Screen.MouseEnter | src/features/ZoneLayouts/ZoneEditor/FullscreenZoneEditor.tsx:185 | the entered zone becomes the hovered one |
| EditorScreen.Screen.MouseLeave | src/features/ZoneLayouts/ZoneEditor/FullscreenZoneEditor.tsx:114-119 | hover and pointer clear unless the hovered zone is the dragged one |
| LegacyEditor.InitialZones | src/components/ZoneLayouts/FullscreenZoneEditor.tsx:55-71 | the loaded zones, or one full-canvas zone numbered 1 when none were sent |
| LegacyEditor.ClampedZones | src/components/ZoneLayouts/FullscreenZoneEditor.tsx:192-205 | only the dragged zone moves, clamped into the canvas, with its size kept |
| LegacyEditor.ClampedZonesStayInCanvas | src/components/ZoneLayouts/FullscreenZoneEditor.tsx:196-203 | a list inside the canvas stays inside it |
| LegacyEditor.ClampThenRestore | src/components/ZoneLayouts/FullscreenZoneEditor.tsx:278-288 | restoring the recorded position after any drag gives the list back |
| LegacyEditor.Editor.constructor | src/components/ZoneLayouts/FullscreenZoneEditor.tsx:31-46 | not loaded, no zones, nothing dragged or pending, horizontal split mode |
| LegacyEditor.Editor.LoadEditorData | src/components/ZoneLayouts/FullscreenZoneEditor.tsx:55-72 | the editor loads the initial zones |
| LegacyEditor.Editor.KeyDown | src/components/ZoneLayouts/FullscreenZoneEditor.tsx:92-98 | Escape closes with the current zones, Shift switches to vertical, other keys do nothing |
| LegacyEditor.Editor.KeyUp | src/components/ZoneLayouts/FullscreenZoneEditor.tsx:100-104 | releasing Shift switches back to horizontal |
| LegacyEditor.Editor.MouseDown | src/components/ZoneLayouts/FullscreenZoneEditor.tsx:160-178 | ignored on a button; otherwise records the zone's position and starts the drag |
| LegacyEditor.Editor.MouseMove | src/components/ZoneLayouts/FullscreenZoneEditor.tsx:180-226 | with a drag and a container, moves the dragged zone clamped and records the merge target |
| LegacyEditor.Editor.MouseUp | src/components/ZoneLayouts/FullscreenZoneEditor.tsx:228-240 | opens the dialog with a target, otherwise clears the drag |
| LegacyEditor.Editor.MergeCancel | src/components/ZoneLayouts/FullscreenZoneEditor.tsx:278-296 | restores the dragged zone when possible and clears the dialog and drag |
| LegacyEditor.Editor.MergeConfirm | src/components/ZoneLayouts/FullscreenZoneEditor.tsx:242-276 | replaces the zones by the merge result, then runs the cancel path |
| LegacyEditor.Editor.SplitZone | src/components/ZoneLayouts/FullscreenZoneEditor.tsx:309-370 | the zones become the split result |
| LegacyEditor.Editor.ZoneClick | src/components/ZoneLayouts/FullscreenZoneEditor.tsx:378-390 | splits the hovered zone in the current mode unless on a button or dragging |
| LegacyEditor.Editor.ZoneMouseMove | src/components/ZoneLayouts/FullscreenZoneEditor.tsx:372-376 | the pointer is recorded unless dragging |
| LegacyEditor.Editor.MouseEnter | src/components/ZoneLayouts/FullscreenZoneEditor.tsx:417 | the entered zone becomes the hovered one |
| LegacyEditor.Editor.MouseLeave | src/components/ZoneLayouts/FullscreenZoneEditor.tsx:418-423 | hover and pointer clear unless the zone is the dragged one |
| PreviewCanvas.BoxOf | src/features/ZoneLayouts/ZonePreviewCanvas.tsx:28-38 | the box bounds every zone |
| PreviewCanvas.BoxIsTight | src/features/ZoneLayouts/ZonePreviewCanvas.tsx:28-38 | each side of the box is some zone's edge, so the box is the smallest one |
| PreviewCanvas.BoundingBox | src/features/ZoneLayouts/ZonePreviewCanvas.tsx:28-38 | the `forEach` loop computes that box |
| PreviewCanvas.ComputeAspectRatio | src/features/ZoneLayouts/ZonePreviewCanvas.tsx:18-56 | the ratio is positive and is the screen ratio, the box ratio or 16:9 |
| PreviewCanvas.AspectRatioCases | src/features/ZoneLayouts/ZonePreviewCanvas.tsx:18-56 | a valid screen gives its ratio, no zones give 16:9, a box of at least 99 by 99 gives 16:9, otherwise the box ratio |
| PreviewCanvas.FullLayoutIsWidescreen | src/features/ZoneLayouts/ZonePreviewCanvas.tsx:47-51 | a layout containing a full-canvas zone previews at 16:9 |
| PreviewCanvas.Drawn | src/features/ZoneLayouts/ZonePreviewCanvas.tsx:77-101 | a zone is drawn inset by 1.5 on each side exactly when something is left, and labelled only when more than 10 by 10 |
| PreviewCanvas.SortByNumber | src/features/ZoneLayouts/ZonePreviewCanvas.tsx:62 | a permutation in ascending number |
| PreviewCanvas.Render | src/features/ZoneLayouts/ZonePreviewCanvas.tsx:61-102 | one entry per zone, drawn ones in ascending number |
| PreviewCanvas.RenderDrawsEveryFittingZone | src/features/ZoneLayouts/ZonePreviewCanvas.tsx:76-102 | every zone that fits is drawn, and everything drawn comes from a zone |
| ZoneOverlay.HoveredAt | src/features/ZoneLayouts/ZoneOverlay/ZoneOverlay.tsx:87-112 | none without data or a container; otherwise the first zone holding the pointer, with a non-empty id |
| ZoneOverlay.OverlayZIndices | src/features/ZoneLayouts/ZoneOverlay/ZoneOverlay.tsx:121-138 | empty without data, otherwise the editor's z-index map |
| ZoneOverlay.Overlay.constructor | src/features/ZoneLayouts/ZoneOverlay/ZoneOverlay.tsx:56-59 | no data, hover or pointer |
| ZoneOverlay.Overlay.Show | src/features/ZoneLayouts/ZoneOverlay/ZoneOverlay.tsx:63-65 | stores the layout and re-evaluates the hover at the last pointer |
| ZoneOverlay.Overlay.Hide | src/features/ZoneLayouts/ZoneOverlay/ZoneOverlay.tsx:68-72 | clears data, hover and pointer |
| ZoneOverlay.Overlay.Mouse | src/features/ZoneLayouts/ZoneOverlay/ZoneOverlay.tsx:75-78 | records the pointer and sets the hover from it |
| ZoneList.NextNumber | src/components/ZoneLayouts/ZoneEditor.tsx:54-56 | 1 for an empty list, otherwise one above the largest number |
| ZoneList.AddZone | src/components/ZoneLayouts/ZoneEditor.tsx:53-75 | appends a 30 by 30 zone at 10,10 with the next number, inside the canvas |
| ZoneList.DeleteZone | src/components/ZoneLayouts/ZoneEditor.tsx:42-51 | keeps exactly the zones with another id |
| ZoneList.AddZoneKeepsDistinct | src/components/ZoneLayouts/ZoneEditor.tsx:53-75 | adding keeps numbers distinct, and ids unique for a fresh id |
| ZoneList.AddThenDelete | src/components/ZoneLayouts/ZoneEditor.tsx:42-75 | deleting a freshly added zone gives the list back |
| ZoneList.ScreenDimensions | src/components/ZoneLayouts/ZoneEditor.tsx:21-33 | the queried dimensions, or 1920 by 1080 when the query fails |
| ZoneList.CanvasAspectRatio | src/components/ZoneLayouts/ZoneEditor.tsx:78-80 | the width over the height, or 16:9 before the dimensions arrive |
| ZoneList.FallbackMatchesDefault | src/components/ZoneLayouts/ZoneEditor.tsx:26-30 | the failure fallback has the same ratio as the initial 16:9 |
| HotkeyPayload.CreateActionPayload | src/features/HotkeySettings/types.ts:19-32 | a zone number wins over the action; an absent or empty action gives no payload |
| HotkeyPayload.Escape | src/features/HotkeySettings/types.ts:38-41 | the escaped body is no shorter than the string |
| HotkeyPayload.JsonString | src/features/HotkeySettings/types.ts:38-41 | a quoted JSON string literal |
| HotkeyPayload.UnescapeEscape | src/features/HotkeySettings/types.ts:38-41 | the escaped string reads back as the original |
| HotkeyPayload.EscapePlain | src/features/HotkeySettings/types.ts:38-41 | a string without quote or backslash is its own escape |
| HotkeyPayload.NatToString | src/features/HotkeySettings/types.ts:38 | decimal digits with no leading zero |
| HotkeyPayload.ParseNatToString | src/features/HotkeySettings/types.ts:38 | the digits read back as the number |
| HotkeyPayload.IntToString | src/features/HotkeySettings/types.ts:38 | a negative number is written with a minus before its magnitude |
| HotkeyPayload.ToJson | src/features/HotkeySettings/types.ts:38-41 | a JSON object text |
| HotkeyPayload.SerializeLayoutAction | src/features/HotkeySettings/types.ts:36-44 | the stored text is empty exactly when there is neither a zone number nor an action, and is a JSON object otherwise |
| HotkeyPayload.JsonStringPlain | src/features/HotkeySettings/types.ts:38-41 | a plain string's JSON is the string in quotes |
| HotkeyPayload.ApplyZoneNameIsPlain | src/features/HotkeySettings/types.ts:38 | "apply-zone" needs no escaping |
| HotkeyPayload.PlainZonePayloadText | src/features/HotkeySettings/types.ts:38 | the zone payload's text, written out |
| HotkeyPayload.ActionHotkeyText | src/features/HotkeySettings/types.ts:40-42 | an action hotkey is stored as `{"action":"<name>"}` |
| HotkeyPayload.SerializeIsJsonOfPayload | src/features/HotkeySettings/types.ts:19-44 | the stored text is the JSON of the payload `createActionPayload` builds, and is empty exactly when it builds none |
| HotkeyPayload.AsRustPayload | src/features/HotkeySettings/types.ts:11-16 | the back end reads the same name and zone, when the zone fits a `u32` |
| HotkeyPayload.BackEndReadsHotkey | src/features/HotkeySettings/types.ts:19-32 | a zone hotkey reads on the back end as applying that zone, and a simple action name as that action |
| HotkeyRecording.HeldModifiers | src/features/HotkeySettings/useHotkeyRecording.ts:24-28 | one name per held modifier, in the order control, alt, shift, super |
| HotkeyRecording.HandleHotkeyKeyDown | src/features/HotkeySettings/useHotkeyRecording.ts:9-46 | Escape cancels, a bare modifier is ignored, any other key records the modifiers and the code joined by '+' |
| HotkeyRecording.RecordedShortcutParts | src/features/HotkeySettings/useHotkeyRecording.ts:37-43 | the recorded shortcut splits back into the modifiers and the code |
| HotkeyRecording.ModifierNameHasNoPlus | src/features/HotkeySettings/useHotkeyRecording.ts:31 | no modifier name contains '+' |
| KeyMapping.MapKey | src/features/HotkeySettings/keyMapping.ts:39-43 | the key loses its first "Key" and is then shown by its platform label if it has one |
| KeyMapping.LabelsHaveNoPlus | src/features/HotkeySettings/keyMapping.ts:9-33 | no label contains '+' |
| KeyMapping.MapKeyKeepsPlusOut | src/features/HotkeySettings/keyMapping.ts:39-43 | a key without '+' is shown without '+' |
| KeyMapping.MappedKeysKeepPlusOut | src/features/HotkeySettings/keyMapping.ts:39-43 | keys without '+' are all shown without '+' |
| KeyMapping.ShortcutMapping | src/features/HotkeySettings/keyMapping.ts:35-44 | the display has as many '+'-separated parts as the shortcut, each the display of the matching key |
| KeyMapping.MacModifierLabels | src/features/HotkeySettings/keyMapping.ts:16-24 | on macOS super and meta read Cmd, alt reads Option, control reads Ctrl |
| KeyMapping.OtherModifierLabels | src/features/HotkeySettings/keyMapping.ts:26-33 | elsewhere super and meta read WIN, alt reads ALT, control reads CTRL |
| KeyMapping.ArrowLabels | src/features/HotkeySettings/keyMapping.ts:9-14 | the arrows read Up, Down, Left, Right on both platforms |
| KeyMapping.LetterKeysDropPrefix | src/features/HotkeySettings/keyMapping.ts:39 | "KeyA" is shown as "A" |
| Strings.Join | src/features/HotkeySettings/useHotkeyRecording.ts:40 | the parts with one separator between neighbours |
| Strings.JoinEndsWithLast | src/features/HotkeySettings/useHotkeyRecording.ts:40 | a join ends with its last part |
| Strings.JoinNonEmpty | src/features/HotkeySettings/useHotkeyRecording.ts:39-43 | a join of two parts, or of one non-empty part, is not empty |
| Strings.Split | src/features/HotkeySettings/keyMapping.ts:39 | the maximal separator-free pieces; never an empty list |
| Strings.JoinSplit | src/features/HotkeySettings/keyMapping.ts:39-43 | joining a split gives the string back |
| Strings.SplitJoin | src/features/HotkeySettings/keyMapping.ts:39-43 | splitting a join of separator-free parts gives the parts back |
| Strings.ToLower | src/features/HotkeySettings/useHotkeyRecording.ts:22 | ASCII capitals become lower case, everything else is kept |
| Strings.IndexOf | src/features/HotkeySettings/keyMapping.ts:39 | the first occurrence of the pattern, none when there is none |
| Strings.ReplaceFirst | src/features/HotkeySettings/keyMapping.ts:39 | only the first occurrence is replaced |
| LayoutActions.Name | src-tauri/src/snapping/action.rs:5-53 | every action has a non-empty kebab-case name |
| LayoutActions.FromName | src-tauri/src/snapping/action.rs:84-87 | a decoded name reads as the simple variant of exactly that name |
| LayoutActions.NameRoundTrip | src-tauri/src/snapping/action.rs:5-53 | every simple variant's name reads back as that variant, so the names are distinct |
| LayoutActions.SimpleNamesAreNotDataNames | src-tauri/src/snapping/action.rs:68-82 | no simple variant is named "apply-zone" or "activate-layout" |
| LayoutActions.ToAction | src-tauri/src/snapping/action.rs:65-90 | "apply-zone" and "activate-layout", matched on the raw text, read their field or fail; any other text reads as a simple variant exactly when it decodes as a JSON string body to that variant's name |
| LayoutActions.HexValue | src-tauri/src/snapping/action.rs:85 | a hexadecimal digit's value is below 16 |
| LayoutActions.Hex4 | src-tauri/src/snapping/action.rs:85 | four hexadecimal digits name a UTF-16 code unit below 0x10000 |
| LayoutActions.Prepend | src-tauri/src/snapping/action.rs:85 | a character in front of a decoded rest, failing exactly when the rest does |
| LayoutActions.EscapeAt | src-tauri/src/snapping/action.rs:85 | an escape at the head of the text spans between 2 and the text's length characters |
| LayoutActions.JsonStringBody | src-tauri/src/snapping/action.rs:85 | the decoded text is never longer than the text |
| LayoutActions.PlainDecodesToItself | src-tauri/src/snapping/action.rs:85 | text without quotes, backslashes or control characters decodes to itself |
| LayoutActions.NamesArePlain | src-tauri/src/snapping/action.rs:5-53 | every action name has no quote, backslash or control character |
| LayoutActions.PlainPrefixDecodes | src-tauri/src/snapping/action.rs:85 | a plain prefix decodes to itself in front of the rest's decoding |
| LayoutActions.HyphenEscapeDecodes | src-tauri/src/snapping/action.rs:85 | a `\u002d` escape between plain texts decodes to a hyphen |
| LayoutActions.EscapedTextIsNoDataName | src-tauri/src/snapping/action.rs:68-82 | text with an escaped hyphen is never matched as "apply-zone" or "activate-layout" |
| LayoutActions.EscapedHyphenReads | src-tauri/src/snapping/action.rs:84-87 | a simple action's name with its hyphen escaped reads as that action |
| LayoutActions.EscapedNameReads | src-tauri/src/snapping/action.rs:84-87 | `left\u002dhalf` reads as the left half |
| LayoutActions.EscapedDataNameFails | src-tauri/src/snapping/action.rs:68-87 | a data variant's name with its hyphen escaped is refused whatever its fields |
| LayoutActions.EscapedApplyZoneFails | src-tauri/src/snapping/action.rs:68-87 | `apply\u002dzone` is refused even with a zone number |
| LayoutActions.NoEscapeDecodesToItself | src-tauri/src/snapping/action.rs:85 | text without a backslash that parses decodes to itself |
| LayoutActions.ToPayload | src-tauri/src/snapping/action.rs:94-129 | writes the name and only the variant's data, and reading it back gives the action |
| LayoutActions.SimpleNameReads | src-tauri/src/snapping/action.rs:84-87 | a simple variant's bare name reads as that variant |
| LayoutActions.PayloadRoundTrip | src-tauri/src/snapping/action.rs:65-129 | a readable payload without stray fields is what its action writes with the name decoded, and exactly the payload when its name has no backslash |
| LayoutActions.SimplePayloadRoundTrip | src-tauri/src/snapping/action.rs:84-106 | a payload read as a simple variant decodes to that variant's name and, with the name decoded, is what the variant writes |
| LayoutActions.DataPayloadRoundTrip | src-tauri/src/snapping/action.rs:68-82 | a payload read as a data variant, without the other variant's field, is exactly what that variant writes |
| WindowRects.TDiv | src-tauri/src/snapping/common.rs:37 | Rust integer division, truncating toward zero |
| WindowRects.CurrentOrScreen | src-tauri/src/snapping/common.rs:25-31 | the window's own rectangle when given, else the whole screen at the origin |
| WindowRects.CalculateWindowRect | src-tauri/src/snapping/common.rs:20-286 | a rectangle for every action except the two data variants, which the match lacks |
| WindowRects.ScreenActionsIgnoreCurrent | src-tauri/src/snapping/common.rs:33-285 | the fixed placements do not depend on the current rectangle |
| WindowRects.ScreenActionsStayOnScreen | src-tauri/src/snapping/common.rs:33-130 | on a screen of non-negative size every fixed placement lies inside the screen |
| WindowRects.HalvesAndThirdsStayOnScreen | src-tauri/src/snapping/common.rs:34-129 | the halves, quarters, thirds and maximize actions lie inside a screen of non-negative size |
| WindowRects.FourthsStayOnScreen | src-tauri/src/snapping/common.rs:186-221 | the column fourths lie inside the screen |
| WindowRects.SixthsStayOnScreen | src-tauri/src/snapping/common.rs:222-257 | the sixths lie inside the screen |
| WindowRects.CornerThirdsStayOnScreen | src-tauri/src/snapping/common.rs:260-283 | the corner thirds lie inside the screen |
| WindowRects.HalvesAreAdjacent | src-tauri/src/snapping/common.rs:34-45 | the halves have equal width and meet, at most one pixel short of the edge |
| WindowRects.MaximizeIsFullScreen | src-tauri/src/snapping/common.rs:118-123 | maximize covers the screen |
| WindowRects.PassThroughActions | src-tauri/src/snapping/common.rs:160-161 | restore and the display changes return the current rectangle, or the whole screen without one |
| WindowRects.MovesKeepSize | src-tauri/src/snapping/common.rs:162-185 | the moves shift by a tenth of the screen on one axis and keep the size |
| WindowRects.CenterBalancesMargins | src-tauri/src/snapping/common.rs:148-153 | center keeps the size and balances the margins to within one pixel |
| WindowRects.MaximizeHeightKeepsColumn | src-tauri/src/snapping/common.rs:130-135 | maximize-height keeps the column and spans the height |
| WindowRects.BottomCornerThirdsEqualTopOnes | src-tauri/src/snapping/common.rs:260-283 | the bottom corner thirds are placed exactly like the top ones |
| WindowRects.SmallerAndLargerNest | src-tauri/src/snapping/common.rs:136-147 | smaller stays inside the old rectangle and larger contains it |
| LayoutStore.IndexOfId | src-tauri/src/store/zone_layouts.rs:61 | the first index holding the id, none when there is none |
| LayoutStore.Find | src-tauri/src/store/zone_layouts.rs:124 | a stored layout with the id, none exactly when there is none |
| LayoutStore.WithoutId | src-tauri/src/store/zone_layouts.rs:93 | the retain never grows the list |
| LayoutStore.Upsert | src-tauri/src/store/zone_layouts.rs:60-65 | the saved layout is in the new list, which is as long as the old one or one longer |
| LayoutStore.ZoneLayoutStore.constructor | src-tauri/src/store/zone_layouts.rs:36-44 | a store with neither key |
| LayoutStore.ZoneLayoutStore.GetAll | src-tauri/src/store/zone_layouts.rs:30-45 | the stored list, or empty without the key |
| LayoutStore.ZoneLayoutStore.Save | src-tauri/src/store/zone_layouts.rs:47-78 | the list becomes the upsert of the old list; the active id stays |
| LayoutStore.ZoneLayoutStore.Delete | src-tauri/src/store/zone_layouts.rs:80-106 | without a list nothing changes; otherwise every layout with the id goes |
| LayoutStore.ZoneLayoutStore.Get | src-tauri/src/store/zone_layouts.rs:108-125 | the first stored layout with the id |
| LayoutStore.ZoneLayoutStore.GetActiveId | src-tauri/src/store/zone_layouts.rs:127-140 | the stored active id |
| LayoutStore.ZoneLayoutStore.SetActiveId | src-tauri/src/store/zone_layouts.rs:142-166 | Some stores the id, None deletes it; the layouts stay |
| LayoutStore.IndexOfIdIs | src-tauri/src/store/zone_layouts.rs:61 | the first index is fixed by the layouts before it |
| LayoutStore.UpsertShape | src-tauri/src/store/zone_layouts.rs:60-65 | a known id is replaced in place at its first index; a new one is appended |
| LayoutStore.FindAfterUpsert | src-tauri/src/store/zone_layouts.rs:60-65 | after a save the id looks up to the saved layout |
| LayoutStore.FindOtherAfterUpsert | src-tauri/src/store/zone_layouts.rs:60-65 | a save leaves every other id's lookup as it was |
| LayoutStore.UpsertTwice | src-tauri/src/store/zone_layouts.rs:60-65 | saving twice under one id equals saving the second once |
| LayoutStore.WithoutIdMembers | src-tauri/src/store/zone_layouts.rs:93 | the delete keeps exactly the layouts with another id |
| LayoutStore.WithoutIdConcat | src-tauri/src/store/zone_layouts.rs:93 | the delete keeps relative order |
| LayoutStore.WithoutIdAbsent | src-tauri/src/store/zone_layouts.rs:93 | deleting an absent id changes nothing |
| LayoutStore.FindAfterRemoveId | src-tauri/src/store/zone_layouts.rs:93 | after a delete the id is gone and every other id looks up as before |
| LayoutStore.FindOtherAfterRemoveId | src-tauri/src/store/zone_layouts.rs:93 | a delete leaves every other id's lookup as it was |
| LayoutStore.FindAppend | src-tauri/src/store/zone_layouts.rs:124 | in a concatenation the first part's match wins |
| WindowStates.NewWindowState | src-tauri/src/snapping/window_state.rs:14-19 | the state holds the id and rectangle given |
| WindowStates.Lookup | src-tauri/src/snapping/window_state.rs:32-34 | the saved state when the id is a key, none otherwise |
| WindowStates.WindowStateStore.constructor | src-tauri/src/snapping/window_state.rs:28-30 | an empty map |
| WindowStates.WindowStateStore.Clone | src-tauri/src/snapping/window_state.rs:22 | a new store with the same entries |
| WindowStates.WindowStateStore.Get | src-tauri/src/snapping/window_state.rs:32-34 | the lookup in the store's map |
| WindowStates.WindowStateStore.Insert | src-tauri/src/snapping/window_state.rs:36-38 | the map with the id set to the state |
| WindowStates.AfterInsert | src-tauri/src/snapping/window_state.rs:49-52 | the id maps to the state and the other keys are unchanged |
| WindowStates.AfterInsertAsWritten | src-tauri/src/snapping/window_state.rs:49-52 | as written, the global map is unchanged, so a new id stays absent |
| WindowStates.GlobalWindowStates.constructor | src-tauri/src/snapping/window_state.rs:41-43 | an empty global store |
| WindowStates.GlobalWindowStates.GetWindowState | src-tauri/src/snapping/window_state.rs:45-47 | the lookup in the global store |
| WindowStates.GlobalWindowStates.InsertWindowStateAsWritten | src-tauri/src/snapping/window_state.rs:49-52 | the insert goes into a clone, so the global store is unchanged |
| WindowStates.GlobalWindowStates.InsertWindowState | src-tauri/src/snapping/window_state.rs:49-52 | the insert reaches the global store |
| WindowStates.InsertIsLost | src-tauri/src/snapping/window_state.rs:49-52 | as written, a state inserted into the empty store cannot be looked up |
| WindowStates.LookupAfterInsert | src-tauri/src/snapping/window_state.rs:45-52 | as intended, the inserted state is found and other ids are unaffected |
| ScreenSelection.Div | src-tauri/src/window/macos.rs:104 | `f64` division, with infinities and NaN for a zero divisor |
| Zones.Max | src-tauri/src/window/macos.rs:74-76 | the larger value (one definition shared with the editor code) |
| Zones.Min | src-tauri/src/window/macos.rs:77-81 | the smaller value (one definition shared with the editor code) |
| ScreenSelection.Intersection | src-tauri/src/window/macos.rs:73-96 | origin at the larger origins, far edges at the nearer far edges, size not clamped |
| ScreenSelection.ContainedPercentage | src-tauri/src/window/macos.rs:98-105 | the intersection's area over the frame's area |
| ScreenSelection.Chosen | src-tauri/src/window/macos.rs:107-118 | the chosen index lies among the displays scanned, 0 before any |
| ScreenSelection.ScreenWithRect | src-tauri/src/window/macos.rs:107-118 | an error exactly for no displays; otherwise the chosen display |
| ScreenSelection.ChosenPrefix | src-tauri/src/window/macos.rs:109-116 | the running maximum is the largest positive share so far, at the first display reaching it |
| ScreenSelection.ChosenIsFirstLargest | src-tauri/src/window/macos.rs:107-118 | the chosen display holds the largest share and more than every display before it; with no positive share, the first display |
| ScreenSelection.ChosenForEmptyFrame | src-tauri/src/window/macos.rs:107-118 | for a zero-area frame, the first display with a positive overlap, else the first display |
| ScreenSelection.InsideMeansWhole | src-tauri/src/window/macos.rs:98-105 | a frame inside a display has share 1 |
| ScreenSelection.IntersectionCommutes | src-tauri/src/window/macos.rs:73-96 | the intersection is symmetric |
| ScreenSelection.DisjointGivesPositiveArea | src-tauri/src/window/macos.rs:90-91 | a frame above and left of a display gets a positive "area" from two negative sides |
| ScreenSelection.U32AsI32 | src-tauri/src/window/macos.rs:55-56 | `as i32` wraps values from 2^31 on |
| ScreenSelection.GetScreenDimensionsForWindow | src-tauri/src/window/macos.rs:47-69 | errors pass through, one display is used as is, and with several displays the frame's display is chosen |
| DragDetector.IsModifierPressed | src-tauri/src/drag_drop/macos/mod.rs:36-44 | the flag for the four known names, false for any other name |
| DragDetector.Press | src-tauri/src/drag_drop/macos/mod.rs:112-121 | non-modifier keys change nothing |
| DragDetector.Release | src-tauri/src/drag_drop/macos/mod.rs:122-131 | non-modifier keys change nothing |
| DragDetector.PressByName | src-tauri/src/drag_drop/macos/mod.rs:112-121 | a press adds exactly the pressed key's modifier to those held |
| DragDetector.ReleaseByName | src-tauri/src/drag_drop/macos/mod.rs:122-131 | a release removes exactly the released key's modifier |
| DragDetector.PressedThenReleasedModifierIsNotHeld | src-tauri/src/drag_drop/macos/mod.rs:112-131 | a modifier is held after its press and not after its release |
| DragDetector.F64AsI32 | src-tauri/src/drag_drop/macos/mod.rs:275 | `as i32`: the result is in the i32 range; in range it is the value truncated toward zero (below or at a positive value by less than 1, above or at a negative one by less than 1); beyond either end it saturates to the bound |
| DragDetector.Detector.constructor | src-tauri/src/drag_drop/macos/mod.rs:15-24 | nothing held, not dragging, latch clear |
| DragDetector.Detector.CheckAndUpdateModifierState | src-tauri/src/drag_drop/macos/mod.rs:299-321 | the latch is set when the configured modifier is held and never cleared here |
| DragDetector.Detector.HandleLeftButtonDown | src-tauri/src/drag_drop/macos/mod.rs:174-205 | with a frontmost window, the drag starts with the latch reset, then checked |
| DragDetector.Detector.HandleMouseMove | src-tauri/src/drag_drop/macos/mod.rs:207-229 | while dragging with a frontmost window, the latch is checked |
| DragDetector.Detector.HandleLeftButtonUp | src-tauri/src/drag_drop/macos/mod.rs:231-297 | ends a drag, drops at the last pointer exactly when the latch was set, and clears the state |
| DragDetector.Detector.HandleEvent | src-tauri/src/drag_drop/macos/mod.rs:109-205 | keys update the modifiers and moves record the pointer; a key event or move never starts or ends a drag, and during a drag with a frontmost window it sets the latch when the configured modifier is held and otherwise keeps it; a press with a frontmost window starts a drag whose latch is whether that modifier is held; a release ends a drag and drops only when it was latched |
| DragDetector.HandleDrop | src-tauri/src/drag_drop/macos/mod.rs:368-392 | fails without an active layout, a stored layout or a screen; otherwise applies the zone under the point, or nothing |

## Left out

- I/O and the UI runtime are parameters or left out: Tauri commands and events, the DOM, `getBoundingClientRect`, React's render and effects, logging, window creation and destruction, store file saving.
- Zone ids from `generateZoneId` are a parameter (`newId`, `freshId`).
- The split bar and measurement labels that follow the pointer in the legacy editor are drawing only and are not modelled.
- The context menu and the "close editor" command are not modelled, beyond Escape returning the zones.
- Floating point: percentages are exact reals. Rounding, `toFixed`, NaN and infinite coordinates are not modelled, except for the screen-share quotient in `ScreenSelection`.
- `ScreenSelection.Div`: the sign of a zero divisor is not modelled, so a negative zero is treated as positive zero.
- Rust `i32` arithmetic overflow in `calculate_window_rect` is not modelled. Division truncation is.
- `WindowRects.CalculateWindowRect`: the source's match names variants the enum does not have (`Specified`, `ReverseAll`, `TileAll`, `CascadeAll`, `CascadeActiveApp`) and has no arm for `ApplyZone` or `ActivateLayout`. Those arms are dropped, and the two data variants give `None`.
- The zone number is an `int` in the model. The store declares it `u32`, and the front end a JavaScript number.
- `LayoutActions.JsonStringBody` decodes JSON string escapes over Unicode characters. The text's UTF-8 encoding is not modelled, since a Rust `&str` is always valid UTF-8.
- Store errors are left out: opening the store, and (de)serialising the stored JSON. The action payload's panics are modelled as `Err`.
- `HotkeyPayload.Escape`: only `"` and `\` are escaped. JSON's escapes of control characters are not modelled.
- `Strings.ToLower` handles ASCII letters only.
- Lookups of keys such as `__proto__` in the JavaScript mapping objects are not modelled.
- The platform query (`platform()`) is a parameter.
- The drag detector's threads, locks, the listener start (`start_drag_detection`) and the overlay thread are not modelled. Neither are `OVERLAY_SHOWING` and showing or hiding the overlay window.
- The application handle is assumed present. The configured modifier key and whether a frontmost window exists are parameters.
- `get_frontmost_window` and `raise_window` are system calls and are left out.
- `snap_window_with_element`'s own errors are not modelled.
- `get_zone_at_position` is not part of this model. The layout's zone lookup is a parameter of `DragDetector.HandleDrop`.
- `get_screen_dimensions` in `src-tauri/src/snapping/macos/screen.rs` is the same algorithm as `window/macos.rs`, so it is modelled once.
- `ScreenDimensions`' `x` and `y` fields are not used by the window rectangles and are dropped there.
- `preventOverlaps` calls `getSnapPoints` inside its loop and never uses the result. That dead call is not modelled.
- `Sorting.SortBy` is a stable insertion sort, but its stability is not proved. `Array.prototype.sort` on the zone arrays is modelled on sequences rather than in place.
- The hooks `useZoneDrag`, `useZoneOperations` and `useZoneResize` that `FullscreenZoneEditor.tsx` imports from `features/ZoneLayouts/ZoneEditor/hooks` are not part of this model. `EditorScreen` uses `ZoneDrag.DragController` (from `features/ZoneLayouts/useZoneDrag.ts`), `ZoneOperations.ZoneOperator` and `ZoneResize.ZoneResizer` (from `components/ZoneLayouts`) in their place.
- `useZoneEditor`'s Tauri traffic (listening for `editor-data` and `request-zones`, `store_editor_zones` on every change, `close_editor_windows`) is I/O and is not modelled. Its effect on the editor's state is modelled by `EditorScreen.Screen.LoadEditorData`, `EditorScreen.Screen.KeyDown` and `EditorScreen.Screen.KeyUp`.
- `ZoneOperations.MergeZones`: a pending merge naming a missing zone is not modelled as the source behaves. With the target missing, the source throws at the first read of `target.x`. With the dragged zone missing and a recorded position, it commits a merged zone whose width and height are NaN and closes the dialog; without a recorded position it throws at `draggedOriginal.x`. The model returns `None` and leaves the list unchanged.
- `PreviewCanvas` models the canvas height (`width / aspectRatio`) only through the ratio.

## Findings

| source | as written | input that shows it | evidently intended | confidence | as-written member | corrected member |
|---|---|---|---|---|---|---|
| src-tauri/src/snapping/window_state.rs:49-52 | `insert_window_state` clones the global store and inserts into the clone, which is then dropped | insert any state for window "w", then `get_window_state("w")`: it returns `None` | the insert reaches the global store, so a later lookup of the id finds the state | high; not executed | WindowStates.InsertIsLost | WindowStates.LookupAfterInsert |
