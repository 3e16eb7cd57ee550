/**
 * The ring data of src/components/SunburstChart.tsx: the two-level tree is
 * flattened into an inner ring (one slice per top-level child) and an outer
 * ring (the leaves of each child, or the child itself when it has none), and
 * each slice gets a colour from a fixed palette by its indices.
 */
module SunburstChart {
  import opened Wrappers
  import opened Seqs
  import opened AssetData
  import Sunburst

  /** A slice of the outer ring: `{...item, category, totalValue, categoryIndex, itemIndex}`. */
  datatype OuterSlice = OuterSlice(node: Node, category: string, totalValue: real, categoryIndex: nat, itemIndex: nat)

  /** A slice of the inner ring: `{...category, totalValue, categoryIndex}`. */
  datatype InnerSlice = InnerSlice(node: Node, totalValue: real, categoryIndex: nat)

  /** Six colour groups of four shades each. */
  const ColorGroups: seq<seq<string>> := [
    ["#2563EB", "#3B82F6", "#60A5FA", "#93C5FD"],
    ["#10B981", "#34D399", "#6EE7B7", "#A7F3D0"],
    ["#F59E0B", "#FBBF24", "#FCD34D", "#FDE68A"],
    ["#EF4444", "#F87171", "#FCA5A5", "#FECACA"],
    ["#8B5CF6", "#A78BFA", "#C4B5FD", "#DDD6FE"],
    ["#06B6D4", "#22D3EE", "#67E8F9", "#A5F3FC"]
  ]

  const FallbackColor: string := "#999999"

  /** `getCategoryColor` */
  function CategoryColors(categoryIndex: nat): seq<string>
  {
    ColorGroups[categoryIndex % |ColorGroups|]
  }

  // -----------------------------------------------------------------------
  // innerPieData

  function InnerSlices(categories: seq<Node>, totalValue: real): seq<InnerSlice>
  {
    if categories == [] then []
    else
      var n := |categories| - 1;
      InnerSlices(categories[..n], totalValue) + [InnerSlice(categories[n], totalValue, n)]
  }

  /** `data.children?.map(...) || []` */
  function InnerPieData(root: Node): seq<InnerSlice>
  {
    match root.children
    case None => []
    case Some(categories) => InnerSlices(categories, root.value)
  }

  // -----------------------------------------------------------------------
  // outerPieData

  function ItemSlices(items: seq<Node>, category: string, totalValue: real, categoryIndex: nat): seq<OuterSlice>
  {
    if items == [] then []
    else
      var n := |items| - 1;
      ItemSlices(items[..n], category, totalValue, categoryIndex) + [OuterSlice(items[n], category, totalValue, categoryIndex, n)]
  }

  predicate HasItems(category: Node)
  {
    category.children.Some? && |category.children.value| > 0
  }

  /** A category's share of the outer ring: its children, or itself when it has none. */
  function CategorySlices(category: Node, totalValue: real, categoryIndex: nat): seq<OuterSlice>
  {
    if HasItems(category) then ItemSlices(category.children.value, category.name, totalValue, categoryIndex)
    else [OuterSlice(category, category.name, totalValue, categoryIndex, 0)]
  }

  function OuterSlices(categories: seq<Node>, totalValue: real): seq<OuterSlice>
  {
    if categories == [] then []
    else
      var n := |categories| - 1;
      OuterSlices(categories[..n], totalValue) + CategorySlices(categories[n], totalValue, n)
  }

  /** `data.children?.flatMap(...) || []` */
  function OuterPieData(root: Node): seq<OuterSlice>
  {
    match root.children
    case None => []
    case Some(categories) => OuterSlices(categories, root.value)
  }

  // -----------------------------------------------------------------------
  // Cell colours

  /** `categoryColors[itemIndex % categoryColors.length] || '#999999'` */
  function OuterCellColor(s: OuterSlice): string
  {
    var colors := CategoryColors(s.categoryIndex);
    var c := colors[s.itemIndex % |colors|];
    if c != "" then c else FallbackColor
  }

  /** `categoryColors[0]` */
  function InnerCellColor(s: InnerSlice): string
  {
    CategoryColors(s.categoryIndex)[0]
  }

  /** The outer cell takes shade `itemIndex mod 4` of group `categoryIndex mod 6`, never the
      fallback; the inner cell takes shade 0 of the same group, so a category's inner slice has the
      colour of its first outer slice; categories six apart share colours. */
  lemma CellColors(o: OuterSlice, i: InnerSlice)
    ensures |CategoryColors(o.categoryIndex)| == 4
    ensures OuterCellColor(o) == ColorGroups[o.categoryIndex % 6][o.itemIndex % 4] != FallbackColor
    ensures InnerCellColor(i) == ColorGroups[i.categoryIndex % 6][0]
    ensures o.categoryIndex == i.categoryIndex && o.itemIndex == 0 ==> OuterCellColor(o) == InnerCellColor(i)
    ensures CategoryColors(o.categoryIndex + 6) == CategoryColors(o.categoryIndex)
  {
    var g := o.categoryIndex % 6;
    assert (o.categoryIndex + 6) % 6 == g;
    assert |ColorGroups[g]| == 4 && ColorGroups[g][o.itemIndex % 4] != "" by {
      assert 0 <= g < 6;
      assert 0 <= o.itemIndex % 4 < 4;
      if g == 0 { } else if g == 1 { } else if g == 2 { } else if g == 3 { } else if g == 4 { } else { }
    }
  }

  // -----------------------------------------------------------------------
  // Properties of the rings

  /** The inner ring has one slice per top-level child, in order, carrying the child, its position
      and the root's value; a root without children gives no slices. */
  lemma {:induction false} InnerSlicesSpec(categories: seq<Node>, totalValue: real)
    ensures |InnerSlices(categories, totalValue)| == |categories|
    ensures forall k :: 0 <= k < |categories| ==>
      InnerSlices(categories, totalValue)[k] == InnerSlice(categories[k], totalValue, k)
  {
    if categories != [] {
      var n := |categories| - 1;
      InnerSlicesSpec(categories[..n], totalValue);
    }
  }

  lemma InnerPieDataSpec(root: Node)
    ensures root.children.None? ==> InnerPieData(root) == []
    ensures root.children.Some? ==>
      && |InnerPieData(root)| == |root.children.value|
      && forall k :: 0 <= k < |root.children.value| ==>
           InnerPieData(root)[k] == InnerSlice(root.children.value[k], root.value, k)
  {
    if root.children.Some? {
      InnerSlicesSpec(root.children.value, root.value);
    }
  }

  /** Slices come category by category in order, and within a category by item position. */
  ghost predicate InRingOrder(slices: seq<OuterSlice>)
  {
    forall i, j :: 0 <= i < j < |slices| ==>
      slices[i].categoryIndex < slices[j].categoryIndex ||
      (slices[i].categoryIndex == slices[j].categoryIndex && slices[i].itemIndex < slices[j].itemIndex)
  }

  /** What a slice of category `categories[ci]` is: one of its children at its own position, or,
      when it has none, the category itself at position 0; tagged with the category's name and the
      root's value. */
  ghost predicate SliceOf(s: OuterSlice, categories: seq<Node>, totalValue: real)
  {
    && s.categoryIndex < |categories|
    && s.category == categories[s.categoryIndex].name
    && s.totalValue == totalValue
    && var c := categories[s.categoryIndex];
       if HasItems(c) then s.itemIndex < |c.children.value| && s.node == c.children.value[s.itemIndex]
       else s.itemIndex == 0 && s.node == c
  }

  /** The number of outer slices a category contributes. */
  function SliceCount(c: Node): nat
  {
    if HasItems(c) then |c.children.value| else 1
  }

  function SliceCounts(categories: seq<Node>): nat
  {
    if categories == [] then 0 else SliceCounts(categories[..|categories| - 1]) + SliceCount(categories[|categories| - 1])
  }

  lemma {:induction false} ItemSlicesSpec(items: seq<Node>, category: string, totalValue: real, ci: nat)
    ensures |ItemSlices(items, category, totalValue, ci)| == |items|
    ensures forall k :: 0 <= k < |items| ==>
      ItemSlices(items, category, totalValue, ci)[k] == OuterSlice(items[k], category, totalValue, ci, k)
  {
    if items != [] {
      ItemSlicesSpec(items[..|items| - 1], category, totalValue, ci);
    }
  }

  lemma {:induction false} OuterSlicesSpec(categories: seq<Node>, totalValue: real)
    ensures |OuterSlices(categories, totalValue)| == SliceCounts(categories)
    ensures InRingOrder(OuterSlices(categories, totalValue))
    ensures forall s :: s in OuterSlices(categories, totalValue) ==> SliceOf(s, categories, totalValue)
  {
    if categories != [] {
      var n := |categories| - 1;
      var prefix := categories[..n];
      var c := categories[n];
      OuterSlicesSpec(prefix, totalValue);
      var before := OuterSlices(prefix, totalValue);
      var own := CategorySlices(c, totalValue, n);
      if HasItems(c) {
        ItemSlicesSpec(c.children.value, c.name, totalValue, n);
      }
      assert forall s :: s in own ==> s.categoryIndex == n && SliceOf(s, categories, totalValue);
      assert forall s :: s in before ==> s.categoryIndex < n;
      forall s | s in before ensures SliceOf(s, categories, totalValue) {
        assert categories[s.categoryIndex] == prefix[s.categoryIndex];
      }
      forall k | 0 <= k < |own| ensures own[k].categoryIndex == n && own[k].itemIndex == k {
        assert own[k] in own;
      }
      RingOrderAppend(before, own, n);
    }
  }

  /** Appending a category's slices, numbered from 0, after the slices of earlier categories
      keeps the ring order. */
  lemma RingOrderAppend(before: seq<OuterSlice>, own: seq<OuterSlice>, n: nat)
    requires InRingOrder(before)
    requires forall s :: s in before ==> s.categoryIndex < n
    requires forall k :: 0 <= k < |own| ==> own[k].categoryIndex == n && own[k].itemIndex == k
    ensures InRingOrder(before + own)
  {
    var all := before + own;
    forall i, j | 0 <= i < j < |all|
      ensures all[i].categoryIndex < all[j].categoryIndex ||
        (all[i].categoryIndex == all[j].categoryIndex && all[i].itemIndex < all[j].itemIndex)
    {
      if j < |before| {
        assert all[i] == before[i] && all[j] == before[j];
      } else if i < |before| {
        assert all[i] == before[i] && before[i] in before;
        assert all[j] == own[j - |before|];
      } else {
        assert all[i] == own[i - |before|];
        assert all[j] == own[j - |before|];
      }
    }
  }

  /** The outer ring lists, category by category, the category's children when it has some and
      the category itself otherwise, each slice tagged with its category's name and position and
      the root's value; a root without children gives no slices. */
  lemma OuterPieDataSpec(root: Node)
    ensures root.children.None? ==> OuterPieData(root) == []
    ensures root.children.Some? ==>
      && |OuterPieData(root)| == SliceCounts(root.children.value)
      && InRingOrder(OuterPieData(root))
      && forall s :: s in OuterPieData(root) ==> SliceOf(s, root.children.value, root.value)
  {
    if root.children.Some? {
      OuterSlicesSpec(root.children.value, root.value);
    }
  }

  function OuterValue(s: OuterSlice): real { s.node.value }

  function InnerValue(s: InnerSlice): real { s.node.value }

  /** A category whose children, if it has any, add up to its own value. */
  predicate Balanced(c: Node)
  {
    HasItems(c) ==> SumOf(c.children.value, ValueOf) == c.value
  }

  lemma {:induction false} ItemSlicesSum(items: seq<Node>, category: string, totalValue: real, ci: nat)
    ensures SumOf(ItemSlices(items, category, totalValue, ci), OuterValue) == SumOf(items, ValueOf)
  {
    if items != [] {
      ItemSlicesSum(items[..|items| - 1], category, totalValue, ci);
    }
  }

  /** A balanced category's outer slices add up to its value. */
  lemma CategorySlicesSum(c: Node, totalValue: real, ci: nat)
    requires Balanced(c)
    ensures SumOf(CategorySlices(c, totalValue, ci), OuterValue) == c.value
  {
    if HasItems(c) {
      ItemSlicesSum(c.children.value, c.name, totalValue, ci);
    } else {
      assert SumOf([OuterSlice(c, c.name, totalValue, ci, 0)], OuterValue) == c.value;
    }
  }

  lemma {:induction false} InnerRingSum(categories: seq<Node>, totalValue: real)
    ensures SumOf(InnerSlices(categories, totalValue), InnerValue) == SumOf(categories, ValueOf)
  {
    if categories != [] {
      InnerRingSum(categories[..|categories| - 1], totalValue);
    }
  }

  lemma {:induction false} OuterRingSum(categories: seq<Node>, totalValue: real)
    requires forall c :: c in categories ==> Balanced(c)
    ensures SumOf(OuterSlices(categories, totalValue), OuterValue) == SumOf(categories, ValueOf)
  {
    if categories != [] {
      var n := |categories| - 1;
      var prefix := categories[..n];
      var c := categories[n];
      assert forall d :: d in prefix ==> d in categories;
      OuterRingSum(prefix, totalValue);
      assert Balanced(c) by { assert categories[n] in categories; }
      CategorySlicesSum(c, totalValue, n);
      assert OuterSlices(categories, totalValue) == OuterSlices(prefix, totalValue) + CategorySlices(c, totalValue, n);
      SumOfAppend(OuterSlices(prefix, totalValue), CategorySlices(c, totalValue, n), OuterValue);
    }
  }

  /** For a tree from either builder, the outer ring and the inner ring both add up to the root's
      value: a kept group's leaves add up to the group, and childless nodes stand for themselves. */
  lemma RingTotals(data: seq<AssetRecord>, key: Sunburst.GroupKey, metric: Sunburst.Metric)
    ensures var root := Sunburst.Sunburst(data, key, metric);
      && SumOf(OuterPieData(root), OuterValue) == root.value
      && SumOf(InnerPieData(root), InnerValue) == root.value
  {
    var root := Sunburst.Sunburst(data, key, metric);
    var gs := Sunburst.Categories(data, key);
    Sunburst.ChildrenSumToRoot(data, key, metric);
    Sunburst.KeptGroupsInOrder(data, key, metric, gs);
    forall c | c in root.children.value ensures Balanced(c) {
      if c in Sunburst.KeptGroups(data, key, metric, gs) {
        Sunburst.GroupNodeLeaves(c.name, Sunburst.Members(data, key, c.name), metric);
      }
    }
    InnerRingSum(root.children.value, root.value);
    OuterRingSum(root.children.value, root.value);
  }
}
