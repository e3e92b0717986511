/** The library sidebar (components/Sidebar.tsx): assets grouped by category
    in a fixed order with a count per group, the empty-state hint, and the
    upload triggers of the file picker and the drop zone. */
module Sidebar {
  import opened Types

  /** The order in which the groups are listed. */
  const Categories: seq<AssetCategory> := [UserResearch, StyleReferences, Sketches]

  function Rank(c: AssetCategory): (r: nat)
    ensures r < |Categories| && Categories[r] == c
  {
    match c
    case UserResearch => 0
    case StyleReferences => 1
    case Sketches => 2
  }

  /** `assets.filter(a => a.category === cat)`. */
  function InCategory(assets: seq<Asset>, cat: AssetCategory): (r: seq<Asset>)
    ensures |r| <= |assets|
    ensures forall k :: 0 <= k < |r| ==> r[k].category == cat
  {
    if |assets| == 0 then []
    else (if assets[0].category == cat then [assets[0]] else []) + InCategory(assets[1..], cat)
  }

  /** One heading of the list: its category, its assets and the badge count. */
  datatype Group = Group(category: AssetCategory, items: seq<Asset>, count: nat)

  /** The groups for the categories `cats`, in that order, dropping the
      empty ones. */
  function GroupsOf(cats: seq<AssetCategory>, assets: seq<Asset>): (gs: seq<Group>)
    ensures |gs| <= |cats|
    ensures forall i :: 0 <= i < |gs| ==>
      gs[i].category in cats && gs[i].items == InCategory(assets, gs[i].category) && gs[i].count == |gs[i].items| > 0
  {
    if |cats| == 0 then []
    else
      var items := InCategory(assets, cats[0]);
      (if |items| == 0 then [] else [Group(cats[0], items, |items|)]) + GroupsOf(cats[1..], assets)
  }

  /** The groups the sidebar shows. */
  function Groups(assets: seq<Asset>): (gs: seq<Group>)
    ensures |gs| <= |Categories|
    ensures forall i :: 0 <= i < |gs| ==>
      gs[i].items == InCategory(assets, gs[i].category) && gs[i].count == |gs[i].items| > 0
  {
    GroupsOf(Categories, assets)
  }

  function TotalCount(groups: seq<Group>): nat
  {
    if |groups| == 0 then 0 else groups[0].count + TotalCount(groups[1..])
  }

  /** The group a category would get, if any. */
  function GroupFor(assets: seq<Asset>, cat: AssetCategory): seq<Group>
  {
    var items := InCategory(assets, cat);
    if |items| == 0 then [] else [Group(cat, items, |items|)]
  }

  /** The three possible groups, in the fixed order. */
  lemma GroupsUnfold(assets: seq<Asset>)
    ensures Groups(assets)
         == GroupFor(assets, UserResearch) + GroupFor(assets, StyleReferences) + GroupFor(assets, Sketches)
  {
    var cs := Categories;
    assert cs[1..][1..][1..] == [];
    assert GroupsOf(cs[1..][1..], assets) == GroupFor(assets, Sketches);
    assert GroupsOf(cs[1..], assets) == GroupFor(assets, StyleReferences) + GroupFor(assets, Sketches);
  }

  /** The sidebar's groups: each non-empty, listing its category's assets
      with their count, in the order User Research, Style References,
      Sketches. */
  lemma GroupsShape(assets: seq<Asset>)
    ensures forall i :: 0 <= i < |Groups(assets)| ==>
      var g := Groups(assets)[i];
      g.items == InCategory(assets, g.category) && g.count == |g.items| > 0
    ensures forall i, j :: 0 <= i < j < |Groups(assets)| ==>
      Rank(Groups(assets)[i].category) < Rank(Groups(assets)[j].category)
  {
    GroupsUnfold(assets);
  }

  /** A category has a group exactly when some asset belongs to it. */
  lemma GroupPresent(assets: seq<Asset>, cat: AssetCategory)
    ensures (exists i :: 0 <= i < |Groups(assets)| && Groups(assets)[i].category == cat)
        <==> (exists k :: 0 <= k < |assets| && assets[k].category == cat)
  {
    GroupsUnfold(assets);
    InCategoryMembers(assets, cat);
    var gs := Groups(assets);
    var items := InCategory(assets, cat);
    if exists k :: 0 <= k < |assets| && assets[k].category == cat {
      var k :| 0 <= k < |assets| && assets[k].category == cat;
      assert assets[k] in items;
      var g0 := GroupFor(assets, UserResearch);
      var g1 := GroupFor(assets, StyleReferences);
      match cat
      case UserResearch => assert gs[0].category == cat;
      case StyleReferences => assert gs[|g0|].category == cat;
      case Sketches => assert gs[|g0| + |g1|].category == cat;
    } else if exists i :: 0 <= i < |gs| && gs[i].category == cat {
      var i :| 0 <= i < |gs| && gs[i].category == cat;
      GroupsShape(assets);
      assert gs[i].items[0] in items;
    }
  }

  /** An asset is listed under a category exactly when it has that category. */
  lemma {:induction false} InCategoryMembers(assets: seq<Asset>, cat: AssetCategory)
    ensures forall a :: a in InCategory(assets, cat) <==> a in assets && a.category == cat
  {
    if |assets| > 0 {
      InCategoryMembers(assets[1..], cat);
      assert assets == [assets[0]] + assets[1..];
    }
  }

  /** Filtering by category commutes with concatenation: each group keeps
      the assets' relative order. */
  lemma {:induction false} InCategoryConcat(a: seq<Asset>, b: seq<Asset>, cat: AssetCategory)
    ensures InCategory(a + b, cat) == InCategory(a, cat) + InCategory(b, cat)
  {
    if |a| == 0 {
      assert a + b == b;
    } else {
      var head := if a[0].category == cat then [a[0]] else [];
      InCategoryConcat(a[1..], b, cat);
      assert (a + b)[0] == a[0];
      assert (a + b)[1..] == a[1..] + b;
      calc {
        InCategory(a + b, cat);
        head + InCategory(a[1..] + b, cat);
        head + (InCategory(a[1..], cat) + InCategory(b, cat));
        (head + InCategory(a[1..], cat)) + InCategory(b, cat);
      }
    }
  }

  /** The closed category set partitions the assets. */
  lemma {:induction false} CategoryPartition(assets: seq<Asset>)
    ensures |InCategory(assets, UserResearch)| + |InCategory(assets, StyleReferences)|
          + |InCategory(assets, Sketches)| == |assets|
  {
    if |assets| > 0 {
      CategoryPartition(assets[1..]);
    }
  }

  lemma {:induction false} TotalCountConcat(a: seq<Group>, b: seq<Group>)
    ensures TotalCount(a + b) == TotalCount(a) + TotalCount(b)
  {
    if |a| == 0 {
      assert a + b == b;
    } else {
      TotalCountConcat(a[1..], b);
      assert (a + b)[1..] == a[1..] + b;
    }
  }

  /** The badges add up to the number of assets. */
  lemma CountsSumToTotal(assets: seq<Asset>)
    ensures TotalCount(Groups(assets)) == |assets|
  {
    GroupsUnfold(assets);
    var g0, g1, g2 := GroupFor(assets, UserResearch), GroupFor(assets, StyleReferences), GroupFor(assets, Sketches);
    TotalCountConcat(g0 + g1, g2);
    TotalCountConcat(g0, g1);
    CategoryPartition(assets);
  }

  /** The "Drag files to start." hint shows when there are no assets and
      no upload is being processed; it never shows beside a group, and when
      nothing is processing either the hint or some group shows. */
  function ShowEmptyHint(assets: seq<Asset>, isProcessing: bool): (show: bool)
    ensures show <==> |assets| == 0 && !isProcessing
    ensures show ==> Groups(assets) == []
    ensures !show && !isProcessing ==> |Groups(assets)| > 0
  {
    var show := |assets| == 0 && !isProcessing;
    assert (show ==> Groups(assets) == []) && (!show && !isProcessing ==> |Groups(assets)| > 0) by {
      CountsSumToTotal(assets);
      GroupsShape(assets);
    }
    show
  }

  /** The file picker's change handler: an upload only for a present,
      non-empty file list. */
  function PickerUpload(files: Option<seq<FileInfo>>): (r: Option<seq<FileInfo>>)
    ensures r.Some? <==> files.Some? && |files.value| > 0
    ensures r.Some? ==> r == files
  {
    if files.Some? && |files.value| > 0 then files else None
  }

  /** The drop zone: its highlight flag. */
  class DropZone {
    var isDragOver: bool

    constructor ()
      ensures !isDragOver
    {
      isDragOver := false;
    }

    method DragOver()
      modifies this
      ensures isDragOver
    {
      isDragOver := true;
    }

    method DragLeave()
      modifies this
      ensures !isDragOver
    {
      isDragOver := false;
    }

    /** A drop clears the highlight and uploads whatever list was dropped,
        an empty one included (a FileList is always truthy). */
    method Drop(files: Option<seq<FileInfo>>) returns (upload: Option<seq<FileInfo>>)
      modifies this
      ensures !isDragOver
      ensures upload == files
    {
      isDragOver := false;
      upload := files;
    }
  }
}
