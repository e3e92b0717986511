# Moodboard logic in Dafny

This project models the logic of a React moodboard ("Traceable"). Uploaded
assets are spread as cards over an infinite canvas and listed by category in
a sidebar. Sticky notes are created by double clicking on the background.
A draggable 3D studio window holds a small scene of shapes. When "Show
Rationale" is on, an SVG overlay redraws on every animation frame. It draws
one dashed cubic connector from each card that has a mounted element to a
single target on the studio window. While a 3D object is selected and its
position has been tracked, the target is that tracked position added to the
window's top-left corner. Otherwise the target is the window's centre.

The model has these modules:

- `Types` mirrors the records of `types.ts`. It also spells out the bits of
  JavaScript the components rely on: optional values, a `Partial<T>` patch
  as an all-`Option` record, the truthiness of a `string | null` id, and
  `startsWith`.
- `SvgPath` covers the connector's `d` text and the renderer's
  `d.split(' ')`.
- `RationaleOverlay` covers `calculatePaths` and the frame loop.
- `IdList` holds the two id-keyed list transforms (`map` by id, `filter`
  by id) that every store uses.
- `Drag` is the shared pointer-drag machine: a `dragging` flag and a grab
  offset. `CanvasAsset`, `StickyNote` and the studio window use it, each
  with its own guards.
- `ThreeStudio` covers the scene-object operations, the tracker's
  NDC-to-pixel map, the material choice and the window's box.
- `Sidebar` covers the category groups, their counts, the empty-state hint
  and the upload triggers.
- `App` holds the stores and the `Board` class, whose fields are the app's
  React state.

Code that changes state step by step is modelled imperatively:

- the overlay's `forEach` that pushes onto `newPaths` is a loop;
- the drag flags, the offsets, the overlay's frame loop, the drop zone's
  highlight and the app state are class fields;
- the `assetRefs` map is a `map` field that is updated in place.

The pure `map`/`filter`/spread transforms are functions. Each is tied to
its specification by lemmas: membership, order, length, idempotence, and
inverses such as "create, then delete, restores".

Inputs from outside the program are parameters:

- bounding boxes, as a function from element handle to `Rect`;
- whether an element is mounted;
- the number formatter, `fmt: real -> string`, which is required only to
  produce no spaces;
- the camera projection, as a function into normalised device coordinates;
- `Math.random()` draws, `Date.now()`, object URLs and generated ids;
- animation-frame handles.

## Model

| member | source | states |
|---|---|---|
| RationaleOverlay.Center | components/RationaleOverlay.tsx:54-55 | the source anchor is the card's centre, equally far from opposite edges |
| RationaleOverlay.Target | components/RationaleOverlay.tsx:36-46 | with a tracked point the target is that point shifted by the window's top-left corner, otherwise the window's centre |
| RationaleOverlay.Bezier | components/RationaleOverlay.tsx:59-66 | the curve runs from source to target; control point 1 has the source's y, control point 2 has the target's y, and both sit at the x midpoint |
| RationaleOverlay.CategoryColor | components/RationaleOverlay.tsx:71-74 | the colour is one of the four listed, and the fallback exactly when the name is none of the three categories; the per-category values are in RationaleOverlay.CategoryColors |
| RationaleOverlay.Connect | components/RationaleOverlay.tsx:68-80 | the label is "Influence: " followed by the asset name; the colour is the category's colour, never the fallback for one of the three categories; the path text is that of the curve from the card's centre to the target |
| RationaleOverlay.CategoryColors | components/RationaleOverlay.tsx:71-74 | User Research, Style References and Sketches get #34d399, #818cf8 and #fbbf24, three distinct colours; any other name gets #94a3b8 |
| RationaleOverlay.Registered | components/RationaleOverlay.tsx:48-50 | only assets with a registered element are kept, never more than there are assets |
| RationaleOverlay.Paths | components/RationaleOverlay.tsx:48-83 | one connector per registered asset; per-connector geometry, colour and label are stated by RationaleOverlay.PathGeometry, order by RationaleOverlay.RegisteredConcat |
| RationaleOverlay.PathsSnoc | components/RationaleOverlay.tsx:48-82 | one more asset appends its connector at the end exactly when its id has an element, which is the forEach step |
| RationaleOverlay.RegisteredMembers | components/RationaleOverlay.tsx:48-50 | an asset gets a connector exactly when its id has an element |
| RationaleOverlay.RegisteredConcat | components/RationaleOverlay.tsx:48-82 | the connectors keep the assets' relative order |
| RationaleOverlay.RegisteredExtremes | components/RationaleOverlay.tsx:48-82 | with every card mounted every asset gets a connector; with none mounted the list is empty |
| RationaleOverlay.CalculatePaths | components/RationaleOverlay.tsx:27-84 | the loop over the assets builds exactly one connector per registered asset, in asset order, aimed at the selected target |
| RationaleOverlay.PathGeometry | components/RationaleOverlay.tsx:54-78 | connector k has 10 space-separated tokens: 1 and 2 are its card's centre, 8 and 9 are the target; its start dot is the card's centre; it has its category's colour and its label |
| RationaleOverlay.Overlay.constructor | components/RationaleOverlay.tsx:22 | the overlay starts hidden, with no paths and no pending frame |
| RationaleOverlay.Overlay.Rendered | components/RationaleOverlay.tsx:101-131 | a hidden overlay renders nothing; a visible one renders its stored paths |
| RationaleOverlay.Overlay.Recalculate | components/RationaleOverlay.tsx:27-31 | without a window rectangle the previous paths stay; otherwise they are recomputed |
| RationaleOverlay.Overlay.Start | components/RationaleOverlay.tsx:24-25 | a loop starts, after computing the paths at once, only when the overlay is visible and the window element exists |
| RationaleOverlay.Overlay.Tick | components/RationaleOverlay.tsx:88-91 | only the pending frame recomputes and reschedules; every other frame changes nothing |
| RationaleOverlay.Overlay.Stop | components/RationaleOverlay.tsx:97 | the cleanup cancels the pending frame |
| SvgPath.IndexOf | components/RationaleOverlay.tsx:129 | finds the first occurrence of the separator |
| SvgPath.PathData | components/RationaleOverlay.tsx:68 | the path text starts with the move-to command; its token structure is stated by SvgPath.PathDataIsJoin and SvgPath.SplitPathData |
| SvgPath.Split | components/RationaleOverlay.tsx:129 | `split` always yields at least one piece |
| SvgPath.SplitJoin | components/RationaleOverlay.tsx:129 | splitting space-free tokens joined by single spaces gives the tokens back |
| SvgPath.PathDataIsJoin | components/RationaleOverlay.tsx:68 | the template literal is its ten tokens joined by single spaces |
| SvgPath.SplitPathData | components/RationaleOverlay.tsx:68 | splitting the path text on spaces recovers exactly its ten tokens |
| SvgPath.StartDot | components/RationaleOverlay.tsx:129 | the dot has coordinates exactly when the split yields at least three pieces |
| SvgPath.StartDotAtStart | components/RationaleOverlay.tsx:129 | the start dot's cx and cy are the curve's start coordinates |
| IdList.MapWhere | App.tsx:110 | every element with the id is updated, every other element is kept, and the length is unchanged |
| IdList.Without | App.tsx:118 | no survivor has the id |
| IdList.WithoutMembers | App.tsx:118 | an element survives exactly when its id differs |
| IdList.WithoutConcat | App.tsx:118 | the survivors keep their relative order |
| IdList.WithoutAbsent | App.tsx:118 | a list without the id is left as it is |
| IdList.WithoutIdempotent | App.tsx:118 | deleting twice is deleting once |
| IdList.WithoutCount | App.tsx:118 | survivors plus removed elements make up the whole list |
| IdList.Matching | App.tsx:118 | lists the elements that carry the id |
| IdList.WithoutAfterMapWhere | App.tsx:110-118 | updating then deleting an id is deleting it, when the update keeps the id |
| IdList.MapWhereIdempotent | App.tsx:110 | an idempotent update applied twice is applied once |
| IdList.WithoutAppended | App.tsx:106-118 | deleting the id of an appended element with a new id restores the list |
| App.MergeNote | App.tsx:110 | the spread keeps every field the patch omits and takes every field it carries |
| App.MergeAsset | App.tsx:114 | the same merge over all ten asset fields |
| App.UpdateNotes | App.tsx:109-111 | merges the patch into every note with the id and keeps every other note and the length; see App.UpdateNotesSpec |
| App.UpdateAssets | App.tsx:113-115 | merges the patch into every asset with the id and keeps every other asset and the length; see App.DragUpdateSpec |
| App.DeleteNote | App.tsx:117-119 | no survivor has the id and the list does not grow; see App.DeleteNoteSpec |
| App.UpdateNotesSpec | App.tsx:109-111 | only the patched fields of notes with the id change; other notes, order and length are unchanged |
| App.UpdateNotesIdempotent | App.tsx:109-111 | re-sending a patch that keeps the id changes nothing more |
| App.TextEditSpec | components/StickyNote.tsx:81 | a text edit changes the text of the notes with that id and nothing else |
| App.DragUpdateSpec | components/CanvasAsset.tsx:20-23 | a card's drag update changes only x and y of the assets with that id |
| App.DeleteNoteSpec | App.tsx:117-119 | deleting removes exactly the notes with the id, keeps the others in order, and the counts add up |
| App.IgnoresDoubleClick | App.tsx:97 | the background guard: inside an interactive area, a BUTTON or an INPUT; its effect is stated by App.DoubleClick |
| App.DoubleClick | App.tsx:93-107 | a click inside an interactive area or on a BUTTON or INPUT adds nothing; otherwise one empty note is appended at the pointer |
| App.CloseAfterDoubleClick | App.tsx:97-119 | closing a freshly created note with a new id restores the notes |
| App.RandomCategory | App.tsx:69-70 | each category is picked exactly on its own third of [0, 1): User Research below 1/3, Style References from 1/3 to 2/3, Sketches from 2/3 up |
| App.SpawnX | App.tsx:73 | the x lies in [W/2+400, W/2+600) on the right side and in [W/2-600, W/2-400) on the left side |
| App.SpawnY | App.tsx:74 | the y lies in [100, 500) |
| App.NewAsset | App.tsx:76-85 | name, id, URL and timestamp come from the file and the environment; the kind is image exactly when the MIME type starts with "image/"; x and y stay in the spawn bands; no size; the category is the random pick and x and y are the spawn positions of the draws |
| App.NewAssets | App.tsx:68-86 | one asset per file, in file order |
| App.OverlayTarget | App.tsx:179 | the overlay gets the tracked point only while a truthy 3D id is selected |
| App.InitialStudioPos | App.tsx:20 | the initial position puts the 600 by 450 window's centre at the viewport's centre; see App.StudioStartsCentred |
| App.StudioStartsCentred | App.tsx:20 | the studio window starts centred in the viewport, so connectors start out converging on the viewport's centre |
| App.Board.constructor | App.tsx:13-37 | the initial state: no assets or notes, nothing processing, the centred studio, the default cube, nothing selected or tracked, no refs |
| App.Board.Target | App.tsx:179 | the overlay's target is the tracked position while the selection is truthy, and none otherwise |
| App.Board.BeginUpload | App.tsx:63 | processing is on during the upload |
| App.Board.CompleteUpload | App.tsx:68-89 | the new assets come first, in file order, the old ones follow unchanged, and processing ends |
| App.Board.CanvasDoubleClick | App.tsx:93-107 | the notes become the double-click result |
| App.Board.UpdateStickyNote | App.tsx:109-111 | the notes become the merged notes |
| App.Board.UpdateAsset | App.tsx:113-115 | the assets become the merged assets |
| App.Board.DeleteStickyNote | App.tsx:117-119 | the notes become the survivors |
| App.Board.SetAssetRef | App.tsx:188-191 | mounting sets the asset's key, unmounting deletes it, and no other key changes |
| App.Board.ToggleLogic | App.tsx:144 | the rationale toggle flips |
| App.Board.ToggleMaximize | App.tsx:57-59 | the maximize toggle flips |
| App.Board.StudioMove | App.tsx:41-43 | the studio moves to the reported position |
| App.Board.Select3D | App.tsx:49-51 | the selection becomes the given id |
| App.Board.TrackerFrame | components/ThreeStudio.tsx:32-45 | a published position replaces the tracked one; a frame that publishes nothing keeps it |
| App.Board.AddShape | components/ThreeStudio.tsx:152-163 | the new object is appended and selected |
| App.Board.DeleteSelected | components/ThreeStudio.tsx:165-171 | the scene, selection and tracked position follow deleteSelected; after a deletion the overlay gets no target |
| App.Board.SyncTransform | components/ThreeStudio.tsx:112-128 | the scene takes the manipulated transform |
| ThreeStudio.ScreenMapCorners | components/ThreeStudio.tsx:41-42 | NDC (-1, 1), (1, -1) and (0, 0) map to the canvas's top-left, bottom-right and centre |
| ThreeStudio.ScreenMap | components/ThreeStudio.tsx:41-42 | x is (nx + 1)/2 of the width and y is (1 - ny)/2 of the height, so y grows downwards; see ThreeStudio.ScreenMapRoundTrip |
| ThreeStudio.ScreenMapRoundTrip | components/ThreeStudio.tsx:41-42 | the pixel position determines the device coordinates |
| ThreeStudio.TrackFrame | components/ThreeStudio.tsx:32-45 | a position is published exactly when the selection is truthy, the scene group exists and an object has the name; it is the projection mapped to pixels |
| ThreeStudio.NewShape | components/ThreeStudio.tsx:153-160 | a new shape has the given type, position [0, 0.5, 0], no rotation, unit scale and colour #ffffff |
| ThreeStudio.AddShape | components/ThreeStudio.tsx:161 | exactly one object is appended after the existing ones |
| ThreeStudio.DeleteSelected | components/ThreeStudio.tsx:165-171 | with a truthy selection no object with that id remains and the selection and tracked position are cleared, and the remaining objects are the original list filtered by id; otherwise nothing changes |
| ThreeStudio.DeleteSelectedSurvivors | components/ThreeStudio.tsx:166-167 | with a selection, an object survives exactly when its id differs, survivors keep their order, and the scene shrinks by the number of matching objects |
| ThreeStudio.DeleteAfterAdd | components/ThreeStudio.tsx:152-171 | deleting a just-added shape with a new id restores the scene |
| ThreeStudio.SyncTransform | components/ThreeStudio.tsx:117-127 | matching objects take the position, rotation and scale; ids, types and colours are kept; all other objects are unchanged |
| ThreeStudio.SyncIdempotent | components/ThreeStudio.tsx:117-127 | syncing twice is syncing once |
| ThreeStudio.MaterialOf | components/ThreeStudio.tsx:59-66 | the selection colour wins over the hover colour, which wins over the object's own; only the selected object glows |
| ThreeStudio.WindowBox | components/ThreeStudio.tsx:202-207 | when not maximized the window is a 600 by 450 box at (x, y) |
| ThreeStudio.HandleHeaderMouseDown | components/ThreeStudio.tsx:173-180 | no drag while maximized or on a button; otherwise the window is grabbed at its position |
| ThreeStudio.HandleWindowMouseMove | components/ThreeStudio.tsx:182-184 | the window moves by exactly the pointer's displacement |
| ThreeStudio.HandleWindowMouseUp | components/ThreeStudio.tsx:186-189 | the drag ends |
| Drag.Draggable.constructor | components/CanvasAsset.tsx:14-15 | not dragging, zero offset |
| Drag.Draggable.Press | components/CanvasAsset.tsx:40-50 | a refused press changes nothing, grab point included; any other press starts a drag and re-takes the offset and grab point when the top-left is known, keeping them otherwise |
| Drag.Draggable.Move | components/CanvasAsset.tsx:18-24 | while dragging the update is the pointer minus the offset, that is, the grab-time position plus the pointer's displacement; otherwise there is none |
| Drag.Draggable.Release | components/CanvasAsset.tsx:26-28 | the drag ends |
| CanvasAsset.HandleMouseDown | components/CanvasAsset.tsx:40-50 | a press on a BUTTON changes nothing; any other press starts a drag with offset pointer minus the card's top-left |
| CanvasAsset.HandleMouseMove | components/CanvasAsset.tsx:18-24 | an update exists exactly while dragging; it carries only x and y, the card's grab-time position plus the pointer's displacement |
| CanvasAsset.HandleMouseUp | components/CanvasAsset.tsx:26-28 | the drag ends and the offset is kept |
| StickyNote.HandleMouseDown | components/StickyNote.tsx:39-52 | a press on a TEXTAREA or BUTTON changes nothing; any other press starts a drag, re-taking the offset only when the note's box exists |
| StickyNote.HandleMouseMove | components/StickyNote.tsx:17-23 | an update exists exactly while dragging; it carries x and y only, the pointer minus the offset |
| StickyNote.HandleMouseUp | components/StickyNote.tsx:25-27 | the drag ends |
| StickyNote.RefusesDrag | components/StickyNote.tsx:40-41 | presses on a TEXTAREA or a BUTTON are refused; its effect is stated by StickyNote.HandleMouseDown |
| StickyNote.TextPatch | components/StickyNote.tsx:81 | a text edit sends the new text and nothing else |
| Sidebar.Rank | components/Sidebar.tsx:15 | each category's position in the fixed list |
| Sidebar.InCategory | components/Sidebar.tsx:69 | every listed asset has the group's category |
| Sidebar.Groups | components/Sidebar.tsx:68-70 | at most one group per category, each listing exactly its category's assets with a non-zero count; order and presence are in Sidebar.GroupsShape and Sidebar.GroupPresent |
| Sidebar.GroupsUnfold | components/Sidebar.tsx:68-70 | the groups are those of User Research, Style References and Sketches, in that order |
| Sidebar.GroupsShape | components/Sidebar.tsx:68-76 | each group lists exactly its category's assets, its badge shows their number, none is empty, and groups follow the fixed order |
| Sidebar.GroupPresent | components/Sidebar.tsx:70 | a category has a group exactly when some asset belongs to it |
| Sidebar.InCategoryMembers | components/Sidebar.tsx:69 | an asset is listed under a category exactly when it has that category |
| Sidebar.InCategoryConcat | components/Sidebar.tsx:69 | each group keeps the assets' relative order |
| Sidebar.CategoryPartition | components/Sidebar.tsx:68-69 | the three categories partition the assets |
| Sidebar.CountsSumToTotal | components/Sidebar.tsx:76 | the badges add up to the number of assets |
| Sidebar.ShowEmptyHint | components/Sidebar.tsx:104 | the hint shows exactly when there are no assets and nothing is processing; it never shows beside a group, and with nothing processing the hint or a group shows |
| Sidebar.PickerUpload | components/Sidebar.tsx:17-21 | the picker uploads only a present, non-empty file list, and uploads it unchanged |
| Sidebar.DropZone.constructor | components/Sidebar.tsx:13 | not highlighted at first |
| Sidebar.DropZone.DragOver | components/Sidebar.tsx:42 | dragging over highlights the zone |
| Sidebar.DropZone.DragLeave | components/Sidebar.tsx:43 | leaving clears the highlight |
| Sidebar.DropZone.Drop | components/Sidebar.tsx:44-48 | a drop clears the highlight and uploads the dropped list |

## Left out

- Presentation is left out: JSX layout, CSS classes, SVG markers and the glow filter, icons, animations, the `scale(1.02)` drag transform and the sidebar's thumbnail choice.
- three.js and react-three-fiber are left out: lights, grid, orbit and transform controls, `getObjectByName`, `getWorldPosition` and the camera projection. The projection is a function parameter into normalised device coordinates. The world position of each named object is a map, so the first match among objects with the same name is not modelled.
- The DOM is not modelled. Bounding boxes, `closest`, `tagName` and whether an element is mounted are inputs. Listener registration is modelled by the `dragging` flag.
- Scheduling is abstracted. React's re-render and effect dependencies, the order in which a state update becomes visible to a listener, `requestAnimationFrame` timing and the 1-second simulated upload delay are not modelled. The upload is split into `BeginUpload` and `CompleteUpload`.
- Numbers are reals. IEEE-754 rounding and overflow are not modelled, and neither is JavaScript's number-to-string conversion. That conversion is a parameter, assumed to produce no spaces.
- Random draws, `Date.now()`, `URL.createObjectURL` and the base-36 id text are parameters. Ids are not assumed unique: updates and deletes act on every element with the id.
- App.MergeNote and App.MergeAsset: a patch field that is present but explicitly `undefined` is treated as absent.
- The note's close button (components/StickyNote.tsx:71) calls the app's delete with the note's own id. That call is `App.DeleteNote(notes, n.id)` and is covered by `App.DeleteNoteSpec`. It has no member of its own.
- The scene-object setter `handleSetSceneObjects` (App.tsx:45-47) only forwards the studio's list transforms. They are modelled as `App.Board.AddShape`, `App.Board.DeleteSelected` and `App.Board.SyncTransform`.
- Sidebar.PickerUpload: the picker is disabled while an upload is processing (components/Sidebar.tsx:62). That is a DOM property, so the model does not encode it.
- RationaleOverlay.Target: the tracked point is measured from the top-left of the 3D canvas. That canvas sits below the window's 48-pixel header (components/ThreeStudio.tsx:211) and 40-pixel toolbar (components/ThreeStudio.tsx:228). The overlay adds the point to the window's own top-left (components/RationaleOverlay.tsx:40-41), so a connector ends about 89 pixels above the selected object. The model follows the code and does not claim the connector reaches the object. The pixel layout is CSS and is not modelled.
- RationaleOverlay.Overlay.Start: the window element's presence at effect setup and the window rectangle of the first frame are taken as the same input.
- The rest of the app shell is left out: the navigation bar, the avatar, and the mode buttons of the studio's toolbar (`EditMode` is declared but no operation of this model reads it).
