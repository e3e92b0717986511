/** The pointer-drag state machine shared by asset cards
    (components/CanvasAsset.tsx), sticky notes (components/StickyNote.tsx)
    and the studio window (components/ThreeStudio.tsx): a `dragging` flag
    and the grab offset from the element's top-left corner to the pointer.
    Each component decides when a press is refused and where the element's
    top-left comes from; the machine itself is the same. */
module Drag {
  import opened Types

  function Sub(p: Point, q: Point): Point
  {
    Point(p.x - q.x, p.y - q.y)
  }

  class Draggable {
    var dragging: bool
    var offset: Point
    /** The element's top-left corner and the pointer when the current
        offset was taken. */
    ghost var anchor: Point
    ghost var grab: Point

    ghost predicate Valid()
      reads this
    {
      offset == Sub(grab, anchor)
    }

    constructor ()
      ensures Valid() && !dragging && offset == Point(0.0, 0.0)
    {
      dragging := false;
      offset := Point(0.0, 0.0);
      anchor := Point(0.0, 0.0);
      grab := Point(0.0, 0.0);
    }

    /** A press: refused presses change nothing; any other press starts a
        drag and, when the element's top-left is known, re-takes the offset
        from it (otherwise the previous offset stays). */
    method Press(refused: bool, pointer: Point, topLeft: Option<Point>)
      requires Valid()
      modifies this
      ensures Valid()
      ensures refused ==> dragging == old(dragging) && offset == old(offset)
      ensures !refused ==> dragging
      ensures !refused && topLeft.Some? ==>
        offset == Sub(pointer, topLeft.value) && anchor == topLeft.value && grab == pointer
      ensures !refused && topLeft.None? ==> offset == old(offset)
      ensures refused || topLeft.None? ==> anchor == old(anchor) && grab == old(grab)
    {
      if !refused {
        dragging := true;
        if topLeft.Some? {
          offset := Sub(pointer, topLeft.value);
          anchor := topLeft.value;
          grab := pointer;
        }
      }
    }

    /** A pointer move: while dragging, the element's new top-left is the
        pointer minus the offset, that is, the grab-time top-left moved by
        exactly the pointer's displacement since the grab; otherwise there
        is no update. */
    method Move(pointer: Point) returns (update: Option<Point>)
      requires Valid()
      ensures update.Some? <==> dragging
      ensures dragging ==> update.value == Sub(pointer, offset)
      ensures dragging ==>
        update.value == Point(anchor.x + (pointer.x - grab.x), anchor.y + (pointer.y - grab.y))
    {
      if dragging {
        update := Some(Point(pointer.x - offset.x, pointer.y - offset.y));
      } else {
        update := None;
      }
    }

    /** A release ends the drag; the offset is kept. */
    method Release()
      requires Valid()
      modifies this`dragging
      ensures Valid() && !dragging
    {
      dragging := false;
    }
  }
}
