/** A sticky note (components/StickyNote.tsx): dragging, editing its text and
    closing it. */
module StickyNote {
  import opened Types
  import opened Drag

  /** Presses on the textarea (text selection) and on the close button do
      not start a drag. */
  predicate RefusesDrag(targetTag: string)
  {
    targetTag == "TEXTAREA" || targetTag == "BUTTON"
  }

  /** Mouse down on the note. The offset is re-taken from the note's
      bounding box when the note element is mounted; otherwise the previous
      offset stays. */
  method HandleMouseDown(drag: Draggable, targetTag: string, pointer: Point, rect: Option<Rect>)
    requires drag.Valid()
    modifies drag
    ensures drag.Valid()
    ensures RefusesDrag(targetTag) ==> drag.dragging == old(drag.dragging) && drag.offset == old(drag.offset)
    ensures !RefusesDrag(targetTag) ==> drag.dragging
    ensures !RefusesDrag(targetTag) && rect.Some? ==>
      drag.offset == Point(pointer.x - rect.value.left, pointer.y - rect.value.top)
    ensures !RefusesDrag(targetTag) && rect.None? ==> drag.offset == old(drag.offset)
  {
    var topLeft := if rect.Some? then Some(Point(rect.value.left, rect.value.top)) else None;
    drag.Press(RefusesDrag(targetTag), pointer, topLeft);
  }

  /** Mouse move on the window: while dragging, the note `id` moves to the
      pointer minus the grab offset; the patch holds x and y only. */
  method HandleMouseMove(drag: Draggable, id: string, pointer: Point) returns (update: Option<(string, StickyPatch)>)
    requires drag.Valid()
    ensures update.Some? <==> drag.dragging
    ensures update.Some? ==>
      update.value == (id, StickyPatch(None, Some(pointer.x - drag.offset.x), Some(pointer.y - drag.offset.y), None))
  {
    var moved := drag.Move(pointer);
    if moved.Some? {
      update := Some((id, StickyPatch(None, Some(moved.value.x), Some(moved.value.y), None)));
    } else {
      update := None;
    }
  }

  method HandleMouseUp(drag: Draggable)
    requires drag.Valid()
    modifies drag
    ensures drag.Valid() && !drag.dragging && drag.offset == old(drag.offset)
  {
    drag.Release();
  }

  /** Editing the textarea sends a patch that holds the new text and
      nothing else. */
  function TextPatch(value: string): (p: StickyPatch)
    ensures p.text == Some(value)
    ensures p.id.None? && p.x.None? && p.y.None?
  {
    StickyPatch(None, None, None, Some(value))
  }
}
