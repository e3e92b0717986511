/** The application shell (App.tsx): the sticky-note, asset and scene-object
    stores with their id-keyed updates, the background double click, the
    simulated upload, the overlay's target selection and the asset-ref
    registry. Random draws, clock readings, object URLs and generated ids
    are parameters. */
module App {
  import opened Types
  import opened IdList
  import ThreeStudio
  import RationaleOverlay
  import Sidebar
  import CanvasAsset
  import StickyNote

  function NoteId(n: StickyNoteData): string { n.id }
  function AssetId(a: Asset): string { a.id }

  /** `{ ...note, ...updates }`: a field present in the patch is replaced,
      every other field is kept. */
  function MergeNote(n: StickyNoteData, p: StickyPatch): (r: StickyNoteData)
    ensures r.id == Override(p.id, n.id) && r.text == Override(p.text, n.text)
    ensures r.x == Override(p.x, n.x) && r.y == Override(p.y, n.y)
  {
    StickyNoteData(Override(p.id, n.id), Override(p.x, n.x), Override(p.y, n.y), Override(p.text, n.text))
  }

  /** `{ ...asset, ...updates }`. */
  function MergeAsset(a: Asset, p: AssetPatch): (r: Asset)
    ensures r.id == Override(p.id, a.id) && r.url == Override(p.url, a.url)
    ensures r.name == Override(p.name, a.name) && r.kind == Override(p.kind, a.kind)
    ensures r.category == Override(p.category, a.category) && r.timestamp == Override(p.timestamp, a.timestamp)
    ensures r.x == Override(p.x, a.x) && r.y == Override(p.y, a.y)
    ensures r.width == (if p.width.Some? then p.width else a.width)
    ensures r.height == (if p.height.Some? then p.height else a.height)
  {
    Asset(Override(p.id, a.id), Override(p.url, a.url), Override(p.name, a.name), Override(p.kind, a.kind),
          Override(p.category, a.category), Override(p.timestamp, a.timestamp),
          Override(p.x, a.x), Override(p.y, a.y),
          if p.width.Some? then p.width else a.width,
          if p.height.Some? then p.height else a.height)
  }

  /** `updateStickyNote`: merges the patch into every note with the id. */
  function UpdateNotes(notes: seq<StickyNoteData>, id: string, p: StickyPatch): (r: seq<StickyNoteData>)
    ensures |r| == |notes|
    ensures forall k :: 0 <= k < |notes| ==> r[k] == if notes[k].id == id then MergeNote(notes[k], p) else notes[k]
  {
    MapWhere(notes, NoteId, id, n => MergeNote(n, p))
  }

  /** `updateAsset`: merges the patch into every asset with the id. */
  function UpdateAssets(assets: seq<Asset>, id: string, p: AssetPatch): (r: seq<Asset>)
    ensures |r| == |assets|
    ensures forall k :: 0 <= k < |assets| ==> r[k] == if assets[k].id == id then MergeAsset(assets[k], p) else assets[k]
  {
    MapWhere(assets, AssetId, id, a => MergeAsset(a, p))
  }

  /** `deleteStickyNote`: keeps the notes with another id, in order. */
  function DeleteNote(notes: seq<StickyNoteData>, id: string): (r: seq<StickyNoteData>)
    ensures |r| <= |notes|
    ensures forall k :: 0 <= k < |r| ==> r[k].id != id
  {
    Without(notes, NoteId, id)
  }

  /** Updating a note overwrites only the patched fields of the notes with
      that id; the other notes, the order and the length are unchanged. */
  lemma UpdateNotesSpec(notes: seq<StickyNoteData>, id: string, p: StickyPatch)
    ensures var r := UpdateNotes(notes, id, p);
      && |r| == |notes|
      && (forall k :: 0 <= k < |notes| && notes[k].id != id ==> r[k] == notes[k])
      && (forall k :: 0 <= k < |notes| && notes[k].id == id ==>
            && r[k].id == Override(p.id, id) && r[k].text == Override(p.text, notes[k].text)
            && r[k].x == Override(p.x, notes[k].x) && r[k].y == Override(p.y, notes[k].y))
  {
  }

  /** Re-sending the same patch changes nothing more, unless it renames
      the note. */
  lemma UpdateNotesIdempotent(notes: seq<StickyNoteData>, id: string, p: StickyPatch)
    requires p.id.None? || p.id == Some(id)
    ensures UpdateNotes(UpdateNotes(notes, id, p), id, p) == UpdateNotes(notes, id, p)
  {
    MapWhereIdempotent(notes, NoteId, id, n => MergeNote(n, p));
  }

  /** Editing a note's text changes the text of the notes with its id and
      nothing else. */
  lemma TextEditSpec(notes: seq<StickyNoteData>, id: string, value: string)
    ensures var r := UpdateNotes(notes, id, StickyNote.TextPatch(value));
      && |r| == |notes|
      && forall k :: 0 <= k < |notes| ==>
           r[k] == if notes[k].id == id then notes[k].(text := value) else notes[k]
  {
  }

  /** A card's drag update moves the cards with its id and changes no other
      field of any asset. */
  lemma DragUpdateSpec(assets: seq<Asset>, id: string, p: AssetPatch)
    requires CanvasAsset.PositionOnly(p)
    ensures var r := UpdateAssets(assets, id, p);
      && |r| == |assets|
      && forall k :: 0 <= k < |assets| ==>
           r[k] == if assets[k].id == id then assets[k].(x := p.x.value, y := p.y.value) else assets[k]
  {
  }

  /** Deleting removes exactly the notes with the id and keeps the others
      in their original order. */
  lemma DeleteNoteSpec(notes: seq<StickyNoteData>, more: seq<StickyNoteData>, id: string, n: StickyNoteData)
    ensures n in DeleteNote(notes, id) <==> n in notes && n.id != id
    ensures DeleteNote(notes + more, id) == DeleteNote(notes, id) + DeleteNote(more, id)
    ensures |DeleteNote(notes, id)| + |Matching(notes, NoteId, id)| == |notes|
  {
    WithoutMembers(notes, NoteId, id, n);
    WithoutConcat(notes, more, NoteId, id);
    WithoutCount(notes, NoteId, id);
  }

  /** Where a double click landed: inside an `.interactive-area` (itself
      included) and the target's tag name. */
  datatype ClickTarget = ClickTarget(inInteractiveArea: bool, tagName: string)

  predicate IgnoresDoubleClick(t: ClickTarget)
  {
    t.inInteractiveArea || t.tagName == "BUTTON" || t.tagName == "INPUT"
  }

  /** `handleCanvasDoubleClick`: a double click on the bare background
      appends one empty note at the pointer; any other target adds nothing.
      `idText` is the clock reading as text. */
  function DoubleClick(notes: seq<StickyNoteData>, t: ClickTarget, clientX: real, clientY: real, idText: string)
    : (r: seq<StickyNoteData>)
    ensures IgnoresDoubleClick(t) ==> r == notes
    ensures !IgnoresDoubleClick(t) ==>
      |r| == |notes| + 1 && r[..|notes|] == notes && r[|notes|] == StickyNoteData(idText, clientX, clientY, "")
  {
    if IgnoresDoubleClick(t) then notes
    else notes + [StickyNoteData(idText, clientX, clientY, "")]
  }

  /** Closing a freshly created note restores the notes. */
  lemma CloseAfterDoubleClick(notes: seq<StickyNoteData>, t: ClickTarget, clientX: real, clientY: real, idText: string)
    requires forall k :: 0 <= k < |notes| ==> notes[k].id != idText
    ensures DeleteNote(DoubleClick(notes, t, clientX, clientY, idText), idText) == notes
  {
    if IgnoresDoubleClick(t) {
      WithoutAbsent(notes, NoteId, idText);
    } else {
      WithoutAppended(notes, StickyNoteData(idText, clientX, clientY, ""), NoteId);
    }
  }

  /** What the upload takes from the environment for one file: four
      `Math.random()` draws (category, side, horizontal and vertical
      offset), the generated id, the object URL and `Date.now()`. */
  datatype SpawnInputs = SpawnInputs(categoryDraw: real, sideDraw: real, xDraw: real, yDraw: real,
                                     id: string, url: string, now: int)

  predicate UnitDraw(r: real) { 0.0 <= r < 1.0 }

  /** `Math.random()` yields values in [0, 1). */
  predicate ValidDraws(s: SpawnInputs)
  {
    UnitDraw(s.categoryDraw) && UnitDraw(s.sideDraw) && UnitDraw(s.xDraw) && UnitDraw(s.yDraw)
  }

  /** `categories[Math.floor(draw * categories.length)]`: each category is
      picked on its own third of [0, 1), in the listed order. */
  function RandomCategory(draw: real): (c: AssetCategory)
    requires UnitDraw(draw)
    ensures c == UserResearch <==> draw < 1.0 / 3.0
    ensures c == StyleReferences <==> 1.0 / 3.0 <= draw < 2.0 / 3.0
    ensures c == Sketches <==> draw >= 2.0 / 3.0
  {
    var i := (draw * 3.0).Floor;
    assert 0 <= i < 3;
    Sidebar.Categories[i]
  }

  /** `innerWidth / 2 + (side > 0.5 ? 400 : -600) + offset * 200`: a band
      200 pixels wide, 400 to 600 pixels right or left of the centre. */
  function SpawnX(innerWidth: real, sideDraw: real, xDraw: real): (x: real)
    requires UnitDraw(xDraw)
    ensures sideDraw > 0.5 ==> innerWidth / 2.0 + 400.0 <= x < innerWidth / 2.0 + 600.0
    ensures sideDraw <= 0.5 ==> innerWidth / 2.0 - 600.0 <= x < innerWidth / 2.0 - 400.0
  {
    innerWidth / 2.0 + (if sideDraw > 0.5 then 400.0 else -600.0) + xDraw * 200.0
  }

  /** `100 + draw * 400`. */
  function SpawnY(yDraw: real): (y: real)
    requires UnitDraw(yDraw)
    ensures 100.0 <= y < 500.0
  {
    100.0 + yDraw * 400.0
  }

  /** The asset created for one uploaded file. */
  function NewAsset(file: FileInfo, s: SpawnInputs, innerWidth: real): (a: Asset)
    requires ValidDraws(s)
    ensures a.name == file.name && a.id == s.id && a.url == s.url && a.timestamp == s.now
    ensures a.kind == Image <==> StartsWith(file.mime, "image/")
    ensures innerWidth / 2.0 - 600.0 <= a.x < innerWidth / 2.0 - 400.0
         || innerWidth / 2.0 + 400.0 <= a.x < innerWidth / 2.0 + 600.0
    ensures 100.0 <= a.y < 500.0
    ensures a.width.None? && a.height.None?
    ensures a.category == RandomCategory(s.categoryDraw)
    ensures a.x == SpawnX(innerWidth, s.sideDraw, s.xDraw) && a.y == SpawnY(s.yDraw)
  {
    Asset(s.id, s.url, file.name,
          if StartsWith(file.mime, "image/") then Image else Text,
          RandomCategory(s.categoryDraw), s.now,
          SpawnX(innerWidth, s.sideDraw, s.xDraw), SpawnY(s.yDraw), None, None)
  }

  /** `Array.from(files).map(...)`: one asset per file, in file order. */
  function NewAssets(files: seq<FileInfo>, spawns: seq<SpawnInputs>, innerWidth: real): (r: seq<Asset>)
    requires |spawns| == |files| && forall k :: 0 <= k < |spawns| ==> ValidDraws(spawns[k])
    ensures |r| == |files|
    ensures forall k :: 0 <= k < |r| ==> r[k].name == files[k].name && r[k].id == spawns[k].id
  {
    seq(|files|, k requires 0 <= k < |files| => NewAsset(files[k], spawns[k], innerWidth))
  }

  /** The overlay aims at the tracked point only while a 3D object is
      selected. */
  function OverlayTarget(selected3DId: Option<string>, trackerPos: Option<Point>): (r: Option<Point>)
    ensures !Truthy(selected3DId) ==> r.None?
    ensures Truthy(selected3DId) ==> r == trackerPos
  {
    if Truthy(selected3DId) then trackerPos else None
  }

  /** The studio window's first position. */
  function InitialStudioPos(innerWidth: real, innerHeight: real): (p: Point)
    ensures p.x + ThreeStudio.WindowWidth / 2.0 == innerWidth / 2.0
    ensures p.y + ThreeStudio.WindowHeight / 2.0 == innerHeight / 2.0
  {
    Point(innerWidth / 2.0 - 300.0, innerHeight / 2.0 - 225.0)
  }

  /** At its first position the 600 by 450 window is centred in the
      viewport, so without a tracked object the connectors converge on the
      viewport's centre. */
  lemma StudioStartsCentred(innerWidth: real, innerHeight: real)
    ensures var p := InitialStudioPos(innerWidth, innerHeight);
      var box := ThreeStudio.WindowBox(p.x, p.y, false);
      && box.Some?
      && RationaleOverlay.Center(box.value) == Point(innerWidth / 2.0, innerHeight / 2.0)
      && RationaleOverlay.Target(box.value, None) == Point(innerWidth / 2.0, innerHeight / 2.0)
  {
  }

  /** `Math.PI / 4` as a double. */
  const QuarterTurn: real := 0.7853981633974483

  /** The component state of the app. */
  class Board {
    var assets: seq<Asset>
    var stickyNotes: seq<StickyNoteData>
    var isProcessing: bool
    var showLogic: bool
    var is3DMaximized: bool
    var studioPos: Point
    var sceneObjects: seq<SceneObject>
    var selected3DId: Option<string>
    var trackerPos: Option<Point>
    /** `assetRefs.current`: the mounted card element of each asset id. */
    var assetRefs: map<string, ElementRef>

    constructor (innerWidth: real, innerHeight: real)
      ensures assets == [] && stickyNotes == [] && !isProcessing && !showLogic && !is3DMaximized
      ensures studioPos == InitialStudioPos(innerWidth, innerHeight)
      ensures sceneObjects == [SceneObject("default-cube", Box, Vec3(0.0, 0.5, 0.0), Vec3(0.0, QuarterTurn, 0.0),
                                           Vec3(1.0, 1.0, 1.0), "#ffffff")]
      ensures selected3DId.None? && trackerPos.None? && assetRefs == map[]
    {
      assets := [];
      stickyNotes := [];
      isProcessing := false;
      showLogic := false;
      is3DMaximized := false;
      studioPos := InitialStudioPos(innerWidth, innerHeight);
      sceneObjects := [SceneObject("default-cube", Box, Vec3(0.0, 0.5, 0.0), Vec3(0.0, QuarterTurn, 0.0),
                                   Vec3(1.0, 1.0, 1.0), "#ffffff")];
      selected3DId := None;
      trackerPos := None;
      assetRefs := map[];
    }

    /** What the overlay receives as its target point. */
    function Target(): (r: Option<Point>)
      reads this
      ensures r == OverlayTarget(selected3DId, trackerPos)
    {
      OverlayTarget(selected3DId, trackerPos)
    }

    /** `handleUpload` up to the simulated delay. */
    method BeginUpload()
      modifies this`isProcessing
      ensures isProcessing
    {
      isProcessing := true;
    }

    /** `handleUpload` after the delay: the new assets go in front of the
        existing ones, in file order, and processing ends. */
    method CompleteUpload(files: seq<FileInfo>, spawns: seq<SpawnInputs>, innerWidth: real)
      requires |spawns| == |files| && forall k :: 0 <= k < |spawns| ==> ValidDraws(spawns[k])
      modifies this`assets, this`isProcessing
      ensures !isProcessing
      ensures |assets| == |files| + |old(assets)|
      ensures assets[|files|..] == old(assets)
      ensures forall k :: 0 <= k < |files| ==> assets[k] == NewAsset(files[k], spawns[k], innerWidth)
    {
      var newAssets := NewAssets(files, spawns, innerWidth);
      assets := newAssets + assets;
      isProcessing := false;
    }

    method CanvasDoubleClick(t: ClickTarget, clientX: real, clientY: real, idText: string)
      modifies this`stickyNotes
      ensures stickyNotes == DoubleClick(old(stickyNotes), t, clientX, clientY, idText)
    {
      stickyNotes := DoubleClick(stickyNotes, t, clientX, clientY, idText);
    }

    method UpdateStickyNote(id: string, p: StickyPatch)
      modifies this`stickyNotes
      ensures stickyNotes == UpdateNotes(old(stickyNotes), id, p)
    {
      stickyNotes := UpdateNotes(stickyNotes, id, p);
    }

    method UpdateAsset(id: string, p: AssetPatch)
      modifies this`assets
      ensures assets == UpdateAssets(old(assets), id, p)
    {
      assets := UpdateAssets(assets, id, p);
    }

    method DeleteStickyNote(id: string)
      modifies this`stickyNotes
      ensures stickyNotes == DeleteNote(old(stickyNotes), id)
    {
      stickyNotes := DeleteNote(stickyNotes, id);
    }

    /** The card's ref callback: mounting registers the element under the
        asset's id, unmounting removes that key; no other key changes. */
    method SetAssetRef(id: string, el: Option<ElementRef>)
      modifies this`assetRefs
      ensures id in assetRefs <==> el.Some?
      ensures el.Some? ==> assetRefs[id] == el.value
      ensures forall k :: k != id ==> (k in assetRefs <==> k in old(assetRefs))
      ensures forall k :: k != id && k in assetRefs ==> assetRefs[k] == old(assetRefs)[k]
    {
      if el.Some? {
        assetRefs := assetRefs[id := el.value];
      } else {
        assetRefs := assetRefs - {id};
      }
    }

    method ToggleLogic()
      modifies this`showLogic
      ensures showLogic == !old(showLogic)
    {
      showLogic := !showLogic;
    }

    method ToggleMaximize()
      modifies this`is3DMaximized
      ensures is3DMaximized == !old(is3DMaximized)
    {
      is3DMaximized := !is3DMaximized;
    }

    method StudioMove(x: real, y: real)
      modifies this`studioPos
      ensures studioPos == Point(x, y)
    {
      studioPos := Point(x, y);
    }

    method Select3D(id: Option<string>)
      modifies this`selected3DId
      ensures selected3DId == id
    {
      selected3DId := id;
    }

    /** One frame of the object tracker: a published position replaces the
        tracked one; when nothing is published the old one stays. */
    method TrackerFrame(groupMounted: bool, worldPos: map<string, Vec3>, project: Vec3 -> Point,
                        width: real, height: real)
      modifies this`trackerPos
      ensures var pub := ThreeStudio.TrackFrame(selected3DId, groupMounted, worldPos, project, width, height);
        trackerPos == if pub.Some? then pub else old(trackerPos)
    {
      var pub := ThreeStudio.TrackFrame(selected3DId, groupMounted, worldPos, project, width, height);
      if pub.Some? {
        trackerPos := pub;
      }
    }

    /** `addShape`: appends the new object and selects it. */
    method AddShape(shape: ShapeType, id: string)
      modifies this`sceneObjects, this`selected3DId
      ensures sceneObjects == ThreeStudio.AddShape(old(sceneObjects), shape, id)
      ensures selected3DId == Some(id)
    {
      sceneObjects := ThreeStudio.AddShape(sceneObjects, shape, id);
      selected3DId := Some(id);
    }

    /** `deleteSelected`. */
    method DeleteSelected()
      modifies this`sceneObjects, this`selected3DId, this`trackerPos
      ensures var d := ThreeStudio.DeleteSelected(old(sceneObjects), old(selected3DId), old(trackerPos));
        sceneObjects == d.objects && selected3DId == d.selected && trackerPos == d.tracked
      ensures Truthy(old(selected3DId)) ==> Target().None?
    {
      var d := ThreeStudio.DeleteSelected(sceneObjects, selected3DId, trackerPos);
      sceneObjects := d.objects;
      selected3DId := d.selected;
      trackerPos := d.tracked;
    }

    /** The transform controls' mouse up, which exists only while an object
        is selected: the manipulated transform is written back. */
    method SyncTransform(position: Vec3, rotation: Vec3, scale: Vec3)
      requires Truthy(selected3DId)
      modifies this`sceneObjects
      ensures sceneObjects == ThreeStudio.SyncTransform(old(sceneObjects), selected3DId.value, position, rotation, scale)
    {
      sceneObjects := ThreeStudio.SyncTransform(sceneObjects, selected3DId.value, position, rotation, scale);
    }
  }
}
