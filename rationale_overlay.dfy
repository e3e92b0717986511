/** The rationale overlay (components/RationaleOverlay.tsx): every frame it
    draws one dashed cubic connector from the centre of each asset card that
    has a mounted element to a single target point, either the tracked 3D
    object (offset by the studio window's top-left) or the window's centre.

    Bounding boxes, the number formatter and animation-frame handles are
    inputs; the per-frame loop is an explicit Idle/Running machine. */
module RationaleOverlay {
  import opened Types
  import opened SvgPath

  const UserResearchColor := "#34d399"
  const StyleReferencesColor := "#818cf8"
  const SketchesColor := "#fbbf24"
  const DefaultColor := "#94a3b8"
  const LabelPrefix := "Influence: "

  /** One connector as the overlay stores and renders it. */
  datatype PathEntry = PathEntry(d: string, labelText: string, color: string)

  /** The geometric centre of a rectangle: as far from its left edge as from
      its right edge, and as far from its top as from its bottom. */
  function Center(r: Rect): (p: Point)
    ensures p.x - r.left == (r.left + r.width) - p.x
    ensures p.y - r.top == (r.top + r.height) - p.y
  {
    Point(r.left + r.width / 2.0, r.top + r.height / 2.0)
  }

  /** The point every connector converges on: the tracked point, which is
      relative to the studio window's top-left corner, or else the centre of
      the window. */
  function Target(windowRect: Rect, targetPoint: Option<Point>): (t: Point)
    ensures targetPoint.Some? ==>
      t.x - windowRect.left == targetPoint.value.x && t.y - windowRect.top == targetPoint.value.y
    ensures targetPoint.None? ==> t == Center(windowRect)
  {
    match targetPoint
    case Some(tp) => Point(windowRect.left + tp.x, windowRect.top + tp.y)
    case None => Center(windowRect)
  }

  /** The connector from `source` to `target`: it eases out horizontally
      from the source and in horizontally to the target, both control points
      standing on the vertical through the midpoint. */
  function Bezier(source: Point, target: Point): (c: Curve)
    ensures c.start == source && c.end == target
    ensures c.cp1.y == source.y && c.cp2.y == target.y
    ensures c.cp1.x == c.cp2.x == (source.x + target.x) / 2.0
  {
    var dx := target.x - source.x;
    Curve(source, Point(source.x + dx * 0.5, source.y), Point(target.x - dx * 0.5, target.y), target)
  }

  /** The stroke colour for a category name; a name outside the three
      categories gets the neutral default. */
  function CategoryColor(category: string): (color: string)
    ensures color in {UserResearchColor, StyleReferencesColor, SketchesColor, DefaultColor}
    ensures color == DefaultColor <==> category !in {"User Research", "Style References", "Sketches"}
  {
    if category == "Sketches" then SketchesColor
    else if category == "Style References" then StyleReferencesColor
    else if category == "User Research" then UserResearchColor
    else DefaultColor
  }

  /** The connector of one asset whose card has bounding box `rect`. */
  function Connect(asset: Asset, rect: Rect, target: Point, fmt: real -> string): (e: PathEntry)
    ensures StartsWith(e.labelText, LabelPrefix) && e.labelText[|LabelPrefix|..] == asset.name
    ensures e.color == DefaultColor <==> asset.category.Name() !in {"User Research", "Style References", "Sketches"}
    ensures e.color == CategoryColor(asset.category.Name())
    ensures e.d == PathData(Bezier(Center(rect), target), fmt)
  {
    PathEntry(PathData(Bezier(Center(rect), target), fmt),
              LabelPrefix + asset.name,
              CategoryColor(asset.category.Name()))
  }

  /** The assets whose id has a registered element, in asset order. */
  function Registered(assets: seq<Asset>, registry: map<string, ElementRef>): (r: seq<Asset>)
    ensures |r| <= |assets|
    ensures forall k :: 0 <= k < |r| ==> r[k].id in registry
  {
    if |assets| == 0 then []
    else
      var last := assets[|assets| - 1];
      Registered(assets[..|assets| - 1], registry) + (if last.id in registry then [last] else [])
  }

  /** The path list of one frame: one connector per registered asset, in
      asset order, each from its card's current bounding box. */
  function Paths(assets: seq<Asset>, registry: map<string, ElementRef>, rectOf: ElementRef -> Rect,
                 target: Point, fmt: real -> string): (ps: seq<PathEntry>)
    ensures |ps| == |Registered(assets, registry)|
  {
    var r := Registered(assets, registry);
    seq(|r|, k requires 0 <= k < |r| => Connect(r[k], rectOf(registry[r[k].id]), target, fmt))
  }

  /** `calculatePaths` once the window rectangle is known: walks the assets,
      skips those without a registered element and pushes one entry for
      each of the others. */
  method CalculatePaths(assets: seq<Asset>, registry: map<string, ElementRef>, rectOf: ElementRef -> Rect,
                        windowRect: Rect, targetPoint: Option<Point>, fmt: real -> string)
    returns (newPaths: seq<PathEntry>)
    ensures newPaths == Paths(assets, registry, rectOf, Target(windowRect, targetPoint), fmt)
  {
    var tx: real, ty: real;
    if targetPoint.Some? {
      tx := windowRect.left + targetPoint.value.x;
      ty := windowRect.top + targetPoint.value.y;
    } else {
      tx := windowRect.left + windowRect.width / 2.0;
      ty := windowRect.top + windowRect.height / 2.0;
    }
    ghost var target := Target(windowRect, targetPoint);
    assert target == Point(tx, ty);

    newPaths := [];
    var i := 0;
    while i < |assets|
      invariant 0 <= i <= |assets|
      invariant newPaths == Paths(assets[..i], registry, rectOf, target, fmt)
    {
      var asset := assets[i];
      assert assets[..i + 1] == assets[..i] + [asset];
      PathsSnoc(assets[..i], asset, registry, rectOf, target, fmt);
      if asset.id in registry {
        var rect := rectOf(registry[asset.id]);
        var sourceX := rect.left + rect.width / 2.0;
        var sourceY := rect.top + rect.height / 2.0;
        var dx := tx - sourceX;
        var cp1x := sourceX + dx * 0.5;
        var cp1y := sourceY;
        var cp2x := tx - dx * 0.5;
        var cp2y := ty;
        var d := PathData(Curve(Point(sourceX, sourceY), Point(cp1x, cp1y), Point(cp2x, cp2y), Point(tx, ty)), fmt);

        var color := DefaultColor;
        if asset.category.Name() == "User Research" { color := UserResearchColor; }
        if asset.category.Name() == "Style References" { color := StyleReferencesColor; }
        if asset.category.Name() == "Sketches" { color := SketchesColor; }

        assert color == CategoryColor(asset.category.Name());
        assert Bezier(Center(rect), target) == Curve(Point(sourceX, sourceY), Point(cp1x, cp1y), Point(cp2x, cp2y), Point(tx, ty));
        assert PathEntry(d, LabelPrefix + asset.name, color) == Connect(asset, rect, target, fmt);
        newPaths := newPaths + [PathEntry(d, LabelPrefix + asset.name, color)];
      }
      i := i + 1;
    }
    assert assets[..i] == assets;
  }

  /** One more asset adds its connector at the end exactly when its id has
      an element. */
  lemma PathsSnoc(assets: seq<Asset>, a: Asset, registry: map<string, ElementRef>, rectOf: ElementRef -> Rect,
                  target: Point, fmt: real -> string)
    ensures Paths(assets + [a], registry, rectOf, target, fmt)
         == Paths(assets, registry, rectOf, target, fmt)
          + (if a.id in registry then [Connect(a, rectOf(registry[a.id]), target, fmt)] else [])
  {
    assert (assets + [a])[..|assets|] == assets;
    assert Registered(assets + [a], registry)
        == Registered(assets, registry) + (if a.id in registry then [a] else []);
  }

  /** Every asset is registered or not; the registered ones are exactly the
      assets whose id has an element. */
  lemma {:induction false} RegisteredMembers(assets: seq<Asset>, registry: map<string, ElementRef>, a: Asset)
    ensures a in Registered(assets, registry) <==> a in assets && a.id in registry
  {
    if |assets| > 0 {
      var init := assets[..|assets| - 1];
      RegisteredMembers(init, registry, a);
      assert assets == init + [assets[|assets| - 1]];
    }
  }

  /** Filtering commutes with concatenation: the relative order of the
      assets is kept. */
  lemma {:induction false} RegisteredConcat(a: seq<Asset>, b: seq<Asset>, registry: map<string, ElementRef>)
    ensures Registered(a + b, registry) == Registered(a, registry) + Registered(b, registry)
  {
    if |b| == 0 {
      assert a + b == a;
    } else {
      var init := b[..|b| - 1];
      RegisteredConcat(a, init, registry);
      assert (a + b)[..|a + b| - 1] == a + init;
    }
  }

  /** When every asset has an element, every asset gets a connector; when
      none has, the list is empty. */
  lemma {:induction false} RegisteredExtremes(assets: seq<Asset>, registry: map<string, ElementRef>)
    ensures (forall k :: 0 <= k < |assets| ==> assets[k].id in registry) ==> Registered(assets, registry) == assets
    ensures (forall k :: 0 <= k < |assets| ==> assets[k].id !in registry) ==> Registered(assets, registry) == []
  {
    if |assets| > 0 {
      RegisteredExtremes(assets[..|assets| - 1], registry);
      assert assets == assets[..|assets| - 1] + [assets[|assets| - 1]];
    }
  }

  /** The three categories get three distinct colours, none of them the
      fallback; any other name gets the fallback. */
  lemma CategoryColors(c1: AssetCategory, c2: AssetCategory, other: string)
    requires other != "User Research" && other != "Style References" && other != "Sketches"
    ensures CategoryColor(c1.Name()) != DefaultColor
    ensures c1 != c2 ==> CategoryColor(c1.Name()) != CategoryColor(c2.Name())
    ensures CategoryColor(other) == DefaultColor
    ensures CategoryColor(UserResearch.Name()) == UserResearchColor
    ensures CategoryColor(StyleReferences.Name()) == StyleReferencesColor
    ensures CategoryColor(Sketches.Name()) == SketchesColor
  {
  }

  /** Each connector starts at the centre of its card, ends at the target,
      carries its asset's category colour, and its start dot lands on the
      start point. */
  lemma PathGeometry(assets: seq<Asset>, registry: map<string, ElementRef>, rectOf: ElementRef -> Rect,
                     target: Point, fmt: real -> string, k: nat)
    requires NoSpaces(fmt)
    requires k < |Registered(assets, registry)|
    ensures var a := Registered(assets, registry)[k];
            var ps := Paths(assets, registry, rectOf, target, fmt);
            var src := Center(rectOf(registry[a.id]));
            var toks := Split(ps[k].d, ' ');
            && |ps| == |Registered(assets, registry)|
            && |toks| == 10
            && toks[1] == fmt(src.x) && toks[2] == fmt(src.y)
            && toks[8] == fmt(target.x) && toks[9] == fmt(target.y)
            && StartDot(ps[k].d) == Some((fmt(src.x), fmt(src.y)))
            && ps[k].color == CategoryColor(a.category.Name())
            && ps[k].labelText == LabelPrefix + a.name
  {
    var a := Registered(assets, registry)[k];
    var c := Bezier(Center(rectOf(registry[a.id])), target);
    SplitPathData(c, fmt);
    StartDotAtStart(c, fmt);
  }

  /** The frame loop's lifecycle; `Running` holds the pending frame handle. */
  datatype LoopState = Idle | Running(frame: nat)

  /** The overlay component: the `paths` state, the props captured by the
      current effect run, and the animation loop. */
  class Overlay {
    var visible: bool
    var loop: LoopState
    var paths: seq<PathEntry>
    var assets: seq<Asset>
    var targetPoint: Option<Point>

    constructor ()
      ensures !visible && loop == Idle && paths == []
      ensures assets == [] && targetPoint == None
    {
      visible := false;
      loop := Idle;
      paths := [];
      assets := [];
      targetPoint := None;
    }

    /** What the component renders: nothing while hidden, else the stored
        paths (which are stale when the window element is missing). */
    function Rendered(): (r: seq<PathEntry>)
      reads this
      ensures !visible ==> r == []
      ensures visible ==> r == paths
    {
      if visible then paths else []
    }

    /** One run of `calculatePaths`: a missing window rectangle keeps the
        previous paths. */
    method Recalculate(registry: map<string, ElementRef>, rectOf: ElementRef -> Rect,
                       windowRect: Option<Rect>, fmt: real -> string)
      modifies this`paths
      ensures windowRect.None? ==> paths == old(paths)
      ensures windowRect.Some? ==>
        paths == Paths(assets, registry, rectOf, Target(windowRect.value, targetPoint), fmt)
    {
      if windowRect.Some? {
        paths := CalculatePaths(assets, registry, rectOf, windowRect.value, targetPoint, fmt);
      }
    }

    /** The effect's setup: with the overlay visible and the window element
        mounted it computes the paths at once and schedules frame `frame`;
        otherwise no loop starts. The previous run's cleanup has already
        run. */
    method Start(isVisible: bool, assets: seq<Asset>, targetPoint: Option<Point>,
                 registry: map<string, ElementRef>, rectOf: ElementRef -> Rect,
                 windowRect: Option<Rect>, fmt: real -> string, frame: nat)
      requires loop == Idle
      modifies this
      ensures visible == isVisible
      ensures this.assets == assets && this.targetPoint == targetPoint
      ensures !(isVisible && windowRect.Some?) ==> loop == Idle && paths == old(paths)
      ensures isVisible && windowRect.Some? ==>
        && loop == Running(frame)
        && paths == Paths(assets, registry, rectOf, Target(windowRect.value, targetPoint), fmt)
    {
      visible := isVisible;
      this.assets := assets;
      this.targetPoint := targetPoint;
      if isVisible && windowRect.Some? {
        Recalculate(registry, rectOf, windowRect, fmt);
        loop := Running(frame);
      }
    }

    /** Frame `fired` arrives. Only the pending frame runs: it recomputes
        the paths from this frame's boxes and schedules frame `next`. Any
        other frame (in particular every frame after Stop) changes nothing. */
    method Tick(fired: nat, registry: map<string, ElementRef>, rectOf: ElementRef -> Rect,
                windowRect: Option<Rect>, fmt: real -> string, next: nat)
      modifies this
      ensures visible == old(visible) && assets == old(assets) && targetPoint == old(targetPoint)
      ensures old(loop) != Running(fired) ==> loop == old(loop) && paths == old(paths)
      ensures old(loop) == Running(fired) ==>
        && loop == Running(next)
        && (windowRect.None? ==> paths == old(paths))
        && (windowRect.Some? ==> paths == Paths(assets, registry, rectOf, Target(windowRect.value, targetPoint), fmt))
    {
      if loop == Running(fired) {
        Recalculate(registry, rectOf, windowRect, fmt);
        loop := Running(next);
      }
    }

    /** The effect's cleanup: cancels the pending frame. */
    method Stop()
      modifies this`loop
      ensures loop == Idle
    {
      loop := Idle;
    }
  }
}
