/** Records shared by the moodboard components, mirroring types.ts, plus the
    small pieces of JavaScript semantics (optional values, truthiness of an
    id, `startsWith`) that the components rely on. */
module Types {

  datatype Option<+T> = None | Some(value: T)

  /** A screen point in CSS pixels (the same space as every bounding box). */
  datatype Point = Point(x: real, y: real)

  /** A DOM bounding box, as `getBoundingClientRect` reports it. */
  datatype Rect = Rect(left: real, top: real, width: real, height: real)

  /** An opaque handle on a mounted DOM element (the value stored in the
      asset-ref registry); its bounding box is supplied per frame. */
  datatype ElementRef = ElementRef(node: nat)

  /** The closed category set, in the order the sidebar lists it. */
  datatype AssetCategory = UserResearch | StyleReferences | Sketches
  {
    /** The string literal the category stands for in the source. */
    function Name(): (s: string)
      ensures |s| > 0
    {
      match this
      case UserResearch => "User Research"
      case StyleReferences => "Style References"
      case Sketches => "Sketches"
    }
  }

  datatype AssetKind = Image | Text

  datatype Asset = Asset(
    id: string,
    url: string,
    name: string,
    kind: AssetKind,
    category: AssetCategory,
    timestamp: int,
    x: real,
    y: real,
    width: Option<real>,
    height: Option<real>)

  /** A `File` as the upload reads it: its name and MIME type. */
  datatype FileInfo = FileInfo(name: string, mime: string)

  datatype StickyNoteData = StickyNoteData(id: string, x: real, y: real, text: string)

  datatype EditMode = Translate | Rotate | Scale

  datatype ShapeType = Box | Cylinder | Sphere | Cone

  /** A `[number, number, number]` tuple. */
  datatype Vec3 = Vec3(x: real, y: real, z: real)

  datatype SceneObject = SceneObject(
    id: string,
    shape: ShapeType,
    position: Vec3,
    rotation: Vec3,
    scale: Vec3,
    color: string)

  /** `Partial<StickyNoteData>`: a field is overwritten exactly when it is present. */
  datatype StickyPatch = StickyPatch(
    id: Option<string>,
    x: Option<real>,
    y: Option<real>,
    text: Option<string>)

  /** `Partial<Asset>`. */
  datatype AssetPatch = AssetPatch(
    id: Option<string>,
    url: Option<string>,
    name: Option<string>,
    kind: Option<AssetKind>,
    category: Option<AssetCategory>,
    timestamp: Option<int>,
    x: Option<real>,
    y: Option<real>,
    width: Option<real>,
    height: Option<real>)

  function Override<T>(patch: Option<T>, current: T): T
  {
    if patch.Some? then patch.value else current
  }

  /** JavaScript truthiness of a `string | null` id: null and "" are falsy. */
  predicate Truthy(id: Option<string>)
  {
    id.Some? && id.value != ""
  }

  /** `s.startsWith(prefix)`. */
  predicate StartsWith(s: string, prefix: string)
  {
    |prefix| <= |s| && s[..|prefix|] == prefix
  }
}
