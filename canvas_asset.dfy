/** Dragging an asset card (components/CanvasAsset.tsx). The card reports
    its new top-left through `onUpdate(id, {x, y})`. */
module CanvasAsset {
  import opened Types
  import opened Drag

  /** A patch that moves an asset and touches no other field. */
  predicate PositionOnly(p: AssetPatch)
  {
    && p.id.None? && p.url.None? && p.name.None? && p.kind.None?
    && p.category.None? && p.timestamp.None? && p.width.None? && p.height.None?
    && p.x.Some? && p.y.Some?
  }

  /** Mouse down on the card: a press whose target is a BUTTON is ignored;
      any other press grabs the card by its current bounding box. */
  method HandleMouseDown(drag: Draggable, targetTag: string, pointer: Point, rect: Rect)
    requires drag.Valid()
    modifies drag
    ensures drag.Valid()
    ensures targetTag == "BUTTON" ==> drag.dragging == old(drag.dragging) && drag.offset == old(drag.offset)
    ensures targetTag != "BUTTON" ==>
      drag.dragging && drag.offset == Point(pointer.x - rect.left, pointer.y - rect.top)
    ensures targetTag != "BUTTON" ==> drag.anchor == Point(rect.left, rect.top) && drag.grab == pointer
  {
    drag.Press(targetTag == "BUTTON", pointer, Some(Point(rect.left, rect.top)));
  }

  /** Mouse move on the window: while dragging, the update for card `id`
      carries only the new x and y, the pointer minus the grab offset. */
  method HandleMouseMove(drag: Draggable, id: string, pointer: Point) returns (update: Option<(string, AssetPatch)>)
    requires drag.Valid()
    ensures update.Some? <==> drag.dragging
    ensures update.Some? ==>
      && update.value.0 == id
      && PositionOnly(update.value.1)
      && update.value.1.x.value == pointer.x - drag.offset.x
      && update.value.1.y.value == pointer.y - drag.offset.y
      && update.value.1.x.value == drag.anchor.x + (pointer.x - drag.grab.x)
      && update.value.1.y.value == drag.anchor.y + (pointer.y - drag.grab.y)
  {
    var moved := drag.Move(pointer);
    if moved.Some? {
      update := Some((id, AssetPatch(None, None, None, None, None, None,
                                     Some(moved.value.x), Some(moved.value.y), None, None)));
    } else {
      update := None;
    }
  }

  /** Mouse up on the window ends the drag (and its listeners go). */
  method HandleMouseUp(drag: Draggable)
    requires drag.Valid()
    modifies drag
    ensures drag.Valid() && !drag.dragging && drag.offset == old(drag.offset)
  {
    drag.Release();
  }
}
