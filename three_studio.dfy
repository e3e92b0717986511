/** The 3D studio window (components/ThreeStudio.tsx): the scene-object list
    operations, the tracker that publishes the selected object's pixel
    position, the mesh colour choice and the draggable window. The scene
    graph, the camera projection and the rendering are three.js's; the
    projection is a parameter that yields normalised device coordinates. */
module ThreeStudio {
  import opened Types
  import opened IdList
  import opened Drag

  const WindowWidth: real := 600.0
  const WindowHeight: real := 450.0
  const NewShapeColor := "#ffffff"
  const SelectedColor := "#818cf8"
  const HoveredColor := "#cbd5e1"
  const SelectedEmissive := "#4f46e5"
  const NoEmissive := "#000000"

  function ObjectId(o: SceneObject): string { o.id }

  /** Normalised device coordinates to canvas pixels: x grows rightwards,
      y is flipped so that it grows downwards. */
  function ScreenMap(ndc: Point, width: real, height: real): (p: Point)
    ensures p.x == (ndc.x + 1.0) * width / 2.0
    ensures p.y == (1.0 - ndc.y) * height / 2.0
  {
    Point((ndc.x * 0.5 + 0.5) * width, (-(ndc.y * 0.5) + 0.5) * height)
  }

  /** The inverse of ScreenMap on a canvas of positive size. */
  function NdcOf(p: Point, width: real, height: real): (ndc: Point)
    requires width > 0.0 && height > 0.0
  {
    Point(2.0 * p.x / width - 1.0, 1.0 - 2.0 * p.y / height)
  }

  /** The NDC corners and centre land on the canvas corners and centre. */
  lemma ScreenMapCorners(width: real, height: real)
    ensures ScreenMap(Point(-1.0, 1.0), width, height) == Point(0.0, 0.0)
    ensures ScreenMap(Point(1.0, -1.0), width, height) == Point(width, height)
    ensures ScreenMap(Point(0.0, 0.0), width, height) == Point(width / 2.0, height / 2.0)
  {
  }

  /** Mapping to pixels loses nothing: the pixel position determines the
      device coordinates. */
  lemma ScreenMapRoundTrip(ndc: Point, width: real, height: real)
    requires width > 0.0 && height > 0.0
    ensures NdcOf(ScreenMap(ndc, width, height), width, height) == ndc
  {
    var p := ScreenMap(ndc, width, height);
    DivCancel(ndc.x * 0.5 + 0.5, width);
    DivCancel(-(ndc.y * 0.5) + 0.5, height);
    assert 2.0 * p.x / width == 2.0 * (p.x / width);
    assert 2.0 * p.y / height == 2.0 * (p.y / height);
  }

  lemma DivCancel(a: real, w: real)
    requires w != 0.0
    ensures (a * w) / w == a
  {
    var q := (a * w) / w;
    assert q * w == a * w;
    assert (q - a) * w == 0.0;
  }

  /** One frame of `ObjectTracker`: nothing is published without a truthy
      selection, without the scene group, or when no object has the selected
      name; otherwise the pixel position of the object's projected world
      position. `worldPos` gives the world position of each named object. */
  function TrackFrame(selectedId: Option<string>, groupMounted: bool, worldPos: map<string, Vec3>,
                      project: Vec3 -> Point, width: real, height: real): (r: Option<Point>)
    ensures r.Some? <==> Truthy(selectedId) && groupMounted && selectedId.value in worldPos
    ensures r.Some? && width > 0.0 && height > 0.0 ==>
      NdcOf(r.value, width, height) == project(worldPos[selectedId.value])
  {
    if !Truthy(selectedId) || !groupMounted then None
    else if selectedId.value in worldPos then
      var p := ScreenMap(project(worldPos[selectedId.value]), width, height);
      assert width > 0.0 && height > 0.0 ==> NdcOf(p, width, height) == project(worldPos[selectedId.value]) by {
        if width > 0.0 && height > 0.0 {
          ScreenMapRoundTrip(project(worldPos[selectedId.value]), width, height);
        }
      }
      Some(p)
    else None
  }

  /** The object `addShape(shape)` creates. */
  function NewShape(shape: ShapeType, id: string): (o: SceneObject)
    ensures o.id == id && o.shape == shape && o.color == NewShapeColor
    ensures o.position == Vec3(0.0, 0.5, 0.0) && o.rotation == Vec3(0.0, 0.0, 0.0)
    ensures o.scale == Vec3(1.0, 1.0, 1.0)
  {
    SceneObject(id, shape, Vec3(0.0, 0.5, 0.0), Vec3(0.0, 0.0, 0.0), Vec3(1.0, 1.0, 1.0), NewShapeColor)
  }

  /** `addShape`: appends exactly one new object after the existing ones. */
  function AddShape(objects: seq<SceneObject>, shape: ShapeType, id: string): (r: seq<SceneObject>)
    ensures |r| == |objects| + 1 && r[..|objects|] == objects && r[|objects|] == NewShape(shape, id)
  {
    objects + [NewShape(shape, id)]
  }

  /** The selection, scene and tracked position after `deleteSelected`. */
  datatype Deletion = Deletion(objects: seq<SceneObject>, selected: Option<string>, tracked: Option<Point>)

  /** `deleteSelected`: with a truthy selection, removes every object with
      the selected id and clears the selection and the tracked position;
      otherwise changes nothing. */
  function DeleteSelected(objects: seq<SceneObject>, selected: Option<string>, tracked: Option<Point>): (r: Deletion)
    ensures !Truthy(selected) ==> r == Deletion(objects, selected, tracked)
    ensures Truthy(selected) ==> r.selected.None? && r.tracked.None?
    ensures Truthy(selected) ==> forall k :: 0 <= k < |r.objects| ==> r.objects[k].id != selected.value
    ensures Truthy(selected) ==> r.objects == Without(objects, ObjectId, selected.value)
  {
    if Truthy(selected) then Deletion(Without(objects, ObjectId, selected.value), None, None)
    else Deletion(objects, selected, tracked)
  }

  /** With a truthy selection, exactly the objects with another id survive,
      in their original order, and the scene shrinks by the number of
      objects that carry the selected id. */
  lemma DeleteSelectedSurvivors(objects: seq<SceneObject>, more: seq<SceneObject>, selected: Option<string>,
                                tracked: Option<Point>, o: SceneObject)
    requires Truthy(selected)
    ensures o in DeleteSelected(objects, selected, tracked).objects <==> o in objects && o.id != selected.value
    ensures DeleteSelected(objects + more, selected, tracked).objects
         == DeleteSelected(objects, selected, tracked).objects + DeleteSelected(more, selected, tracked).objects
    ensures |DeleteSelected(objects, selected, tracked).objects| + |Matching(objects, ObjectId, selected.value)|
         == |objects|
  {
    WithoutMembers(objects, ObjectId, selected.value, o);
    WithoutConcat(objects, more, ObjectId, selected.value);
    WithoutCount(objects, ObjectId, selected.value);
  }

  /** Adding a shape with a fresh id and deleting it again restores the
      scene and leaves nothing selected or tracked. */
  lemma DeleteAfterAdd(objects: seq<SceneObject>, shape: ShapeType, id: string, tracked: Option<Point>)
    requires id != ""
    requires forall k :: 0 <= k < |objects| ==> objects[k].id != id
    ensures DeleteSelected(AddShape(objects, shape, id), Some(id), tracked) == Deletion(objects, None, None)
  {
    WithoutAppended(objects, NewShape(shape, id), ObjectId);
  }

  function WithTransform(o: SceneObject, position: Vec3, rotation: Vec3, scale: Vec3): SceneObject
  {
    o.(position := position, rotation := rotation, scale := scale)
  }

  /** The transform-controls sync on mouse up: every object with the
      selected id takes the manipulated object's position, rotation and
      scale; ids, shapes, colours and all other objects stay. */
  function SyncTransform(objects: seq<SceneObject>, selectedId: string,
                         position: Vec3, rotation: Vec3, scale: Vec3): (r: seq<SceneObject>)
    ensures |r| == |objects|
    ensures forall k :: 0 <= k < |r| ==>
      && r[k].id == objects[k].id && r[k].shape == objects[k].shape && r[k].color == objects[k].color
    ensures forall k :: 0 <= k < |r| && objects[k].id == selectedId ==>
      r[k].position == position && r[k].rotation == rotation && r[k].scale == scale
    ensures forall k :: 0 <= k < |r| && objects[k].id != selectedId ==> r[k] == objects[k]
  {
    MapWhere(objects, ObjectId, selectedId, o => WithTransform(o, position, rotation, scale))
  }

  /** Syncing the same transform twice is syncing it once. */
  lemma SyncIdempotent(objects: seq<SceneObject>, selectedId: string, position: Vec3, rotation: Vec3, scale: Vec3)
    ensures SyncTransform(SyncTransform(objects, selectedId, position, rotation, scale), selectedId, position, rotation, scale)
         == SyncTransform(objects, selectedId, position, rotation, scale)
  {
    MapWhereIdempotent(objects, ObjectId, selectedId, o => WithTransform(o, position, rotation, scale));
  }

  /** The mesh material's colour and glow. */
  datatype Material = Material(color: string, emissive: string, emissiveIntensity: real)

  /** `SceneItem`'s material: the selection colour wins over the hover
      colour, which wins over the object's own colour; only the selected
      object glows. */
  function MaterialOf(obj: SceneObject, isSelected: bool, hovered: bool): (m: Material)
    ensures m.emissiveIntensity > 0.0 <==> isSelected
    ensures m.emissive != NoEmissive <==> isSelected
    ensures isSelected ==> m.color == SelectedColor
    ensures !isSelected && hovered ==> m.color == HoveredColor
    ensures !isSelected && !hovered ==> m.color == obj.color
  {
    Material(if isSelected then SelectedColor else if hovered then HoveredColor else obj.color,
             if isSelected then SelectedEmissive else NoEmissive,
             if isSelected then 0.3 else 0.0)
  }

  /** The window's box when not maximized: 600 by 450 at (x, y). A
      maximized window fills the viewport less a margin and has no box of
      its own here. */
  function WindowBox(x: real, y: real, isMaximized: bool): (r: Option<Rect>)
    ensures r.Some? <==> !isMaximized
    ensures r.Some? ==> r.value.left == x && r.value.top == y
    ensures r.Some? ==> r.value.width == WindowWidth && r.value.height == WindowHeight
  {
    if isMaximized then None else Some(Rect(x, y, WindowWidth, WindowHeight))
  }

  /** Mouse down on the window header: no drag while maximized or on a
      press inside a button; otherwise the window is grabbed by its
      position (x, y). */
  method HandleHeaderMouseDown(drag: Draggable, isMaximized: bool, insideButton: bool,
                               pointer: Point, x: real, y: real)
    requires drag.Valid()
    modifies drag
    ensures drag.Valid()
    ensures isMaximized || insideButton ==> drag.dragging == old(drag.dragging) && drag.offset == old(drag.offset)
    ensures !isMaximized && !insideButton ==>
      && drag.dragging
      && drag.offset == Point(pointer.x - x, pointer.y - y)
      && drag.anchor == Point(x, y) && drag.grab == pointer
  {
    drag.Press(isMaximized || insideButton, pointer, Some(Point(x, y)));
  }

  /** The window's move listener: reports the position moved by exactly the
      pointer's displacement since the press. */
  method HandleWindowMouseMove(drag: Draggable, pointer: Point) returns (moveTo: Option<Point>)
    requires drag.Valid()
    ensures moveTo.Some? <==> drag.dragging
    ensures moveTo.Some? ==>
      moveTo.value == Point(drag.anchor.x + (pointer.x - drag.grab.x), drag.anchor.y + (pointer.y - drag.grab.y))
  {
    moveTo := drag.Move(pointer);
  }

  /** The window's up listener removes both listeners. */
  method HandleWindowMouseUp(drag: Draggable)
    requires drag.Valid()
    modifies drag
    ensures drag.Valid() && !drag.dragging
  {
    drag.Release();
  }
}
