/**
 * The two-level grouping of src/utils/dataProcessor.ts. `createSunburstData`
 * and `createPerformanceSunburstData` are the same algorithm with a different
 * magnitude column; both are instances of `BuildSunburst` here.
 *
 * Rows are grouped by a label column in first-seen order (label strings are
 * taken not to look like array indices and not to be names inherited from
 * the JavaScript object prototype, so a plain object keeps them in insertion
 * order). A group whose share of the total is below 5% is folded into a
 * trailing '기타' node.
 */
module Sunburst {
  import opened Wrappers
  import opened Seqs
  import opened AssetData

  /** The column that groups rows: 자산분류 or 섹터. */
  datatype GroupKey = ByAssetClass | BySector

  /** The column that sizes slices; its magnitude is used. */
  datatype Metric = EndingValue | ContributionValue

  /** `'portfolio' | 'sector'` */
  datatype ChartType = Portfolio | Sector

  const OtherName: string := "기타"

  /** Groups below this share of the total, in percent, are folded into '기타'. */
  const ThresholdPercent: real := 5.0

  function KeyOf(key: GroupKey, r: AssetRecord): string
  {
    match key
    case ByAssetClass => r.assetClass
    case BySector => r.sector
  }

  /** The root's name: the display name of the grouping column. */
  function Label(key: GroupKey): string
  {
    match key
    case ByAssetClass => "자산분류"
    case BySector => "섹터"
  }

  function Category(key: GroupKey): AssetRecord -> string
  {
    (r: AssetRecord) => KeyOf(key, r)
  }

  function InCategory(key: GroupKey, g: string): AssetRecord -> bool
  {
    (r: AssetRecord) => KeyOf(key, r) == g
  }

  /** `Math.abs(item[valueKey])` */
  function Magnitude(metric: Metric, r: AssetRecord): real
  {
    Abs(if metric == EndingValue then r.endValue else r.contribution)
  }

  function MagnitudeOf(metric: Metric): AssetRecord -> real
  {
    (r: AssetRecord) => Magnitude(metric, r)
  }

  function IsNonzero(metric: Metric): AssetRecord -> bool
  {
    (r: AssetRecord) => Magnitude(metric, r) > 0.0
  }

  /** The group labels in order of first appearance (the keys of `grouped`). */
  function Categories(data: seq<AssetRecord>, key: GroupKey): seq<string>
  {
    Distinct(Map(data, Category(key)))
  }

  /** The rows of group `g`, in input order (the value `grouped[g]`). */
  function Members(data: seq<AssetRecord>, key: GroupKey, g: string): seq<AssetRecord>
  {
    Filter(data, InCategory(key, g))
  }

  /** The sum of the magnitudes of `items`. */
  function MagnitudeSum(items: seq<AssetRecord>, metric: Metric): real
  {
    SumOf(items, MagnitudeOf(metric))
  }

  /** `categoryPercentage < 5` where the percentage is `categoryValue / totalValue * 100`.
      A zero total makes the share NaN (0/0) or Infinity, neither of which is below 5. */
  predicate IsDemoted(categoryValue: real, totalValue: real)
  {
    totalValue != 0.0 && (categoryValue / totalValue) * 100.0 < ThresholdPercent
  }

  /** The two-way leaf colour: a zero contribution counts as a gain. */
  function LeafFill(contribution: real): string
  {
    if contribution >= 0.0 then Gain else Loss
  }

  function Leaf(metric: Metric): AssetRecord -> Node
  {
    (r: AssetRecord) => Node(r.itemName, Magnitude(metric, r), None, Some(LeafFill(r.contribution)))
  }

  /** `itemChildren`: one leaf per member of nonzero magnitude. */
  function Leaves(items: seq<AssetRecord>, metric: Metric): seq<Node>
  {
    Map(Filter(items, IsNonzero(metric)), Leaf(metric))
  }

  function GroupNode(g: string, items: seq<AssetRecord>, metric: Metric): Node
  {
    Node(g, MagnitudeSum(items, metric), Some(Leaves(items, metric)), Some(GroupFill))
  }

  /** The nodes of the groups among `gs` that are not demoted, in the order of `gs`. */
  function KeptGroups(data: seq<AssetRecord>, key: GroupKey, metric: Metric, gs: seq<string>): seq<Node>
  {
    if gs == [] then []
    else
      var kept := KeptGroups(data, key, metric, gs[..|gs| - 1]);
      var g := gs[|gs| - 1];
      var items := Members(data, key, g);
      if IsDemoted(MagnitudeSum(items, metric), MagnitudeSum(data, metric)) then kept
      else kept + [GroupNode(g, items, metric)]
  }

  function OtherNode(value: real): Node
  {
    Node(OtherName, value, None, Some(OtherFill))
  }

  /** The tree both builders return. */
  function Sunburst(data: seq<AssetRecord>, key: GroupKey, metric: Metric): Node
  {
    var totalValue := MagnitudeSum(data, metric);
    var kept := KeptGroups(data, key, metric, Categories(data, key));
    var otherValue := totalValue - SumOf(kept, ValueOf);
    Node(Label(key), totalValue, Some(if otherValue > 0.0 then kept + [OtherNode(otherValue)] else kept), None)
  }

  // -----------------------------------------------------------------------
  // The builders

  /** Groups the rows into a map in one pass, then builds one node per kept group and
      appends '기타' for whatever the kept groups do not represent. */
  method BuildSunburst(data: seq<AssetRecord>, key: GroupKey, metric: Metric) returns (root: Node)
    ensures root == Sunburst(data, key, metric)
  {
    var categories, grouped := GroupRows(data, key);
    var totalValue := MagnitudeSum(data, metric);
    var children := KeptGroupNodes(data, key, metric, categories, grouped, totalValue);
    ghost var kept := children;
    var representedValue := SumOf(children, ValueOf);
    var otherValue := totalValue - representedValue;
    if otherValue > 0.0 {
      children := children + [OtherNode(otherValue)];
    }
    root := Node(Label(key), totalValue, Some(children), None);
    SunburstFromParts(data, key, metric, totalValue, kept);
  }

  /** The tree, given its total and its kept groups. */
  lemma SunburstFromParts(data: seq<AssetRecord>, key: GroupKey, metric: Metric, total: real, kept: seq<Node>)
    requires MagnitudeSum(data, metric) == total
    requires KeptGroups(data, key, metric, Categories(data, key)) == kept
    ensures var other := total - SumOf(kept, ValueOf);
      Sunburst(data, key, metric) == Node(Label(key), total, Some(if other > 0.0 then kept + [OtherNode(other)] else kept), None)
  {
    var other := total - SumOf(kept, ValueOf);
    var root := Sunburst(data, key, metric);
    assert root.children == Some(if other > 0.0 then kept + [OtherNode(other)] else kept);
    assert root.name == Label(key) && root.value == total && root.fill == None;
  }

  /** The `reduce` that pushes each row onto the array of its group, creating the array on
      the group's first row. */
  method GroupRows(data: seq<AssetRecord>, key: GroupKey) returns (categories: seq<string>, grouped: map<string, seq<AssetRecord>>)
    ensures categories == Categories(data, key)
    ensures forall g :: g in grouped <==> g in categories
    ensures forall g :: g in grouped ==> grouped[g] == Members(data, key, g)
  {
    categories, grouped := [], map[];
    var i := 0;
    while i < |data|
      invariant 0 <= i <= |data|
      invariant categories == Categories(data[..i], key)
      invariant forall g :: g in grouped <==> g in categories
      invariant forall g :: g in grouped ==> grouped[g] == Members(data[..i], key, g)
    {
      var category := KeyOf(key, data[i]);
      ghost var categories0, grouped0 := categories, grouped;
      if category !in grouped {
        grouped := grouped[category := []];
        categories := categories + [category];
      }
      grouped := grouped[category := grouped[category] + [data[i]]];
      GroupRowsStep(data, i, key, categories0, grouped0);
      i := i + 1;
    }
    assert data[..|data|] == data;
  }

  /** One row of the grouping `reduce` keeps the labels and the groups in step with the rows seen. */
  lemma GroupRowsStep(data: seq<AssetRecord>, i: nat, key: GroupKey, categories: seq<string>, grouped: map<string, seq<AssetRecord>>)
    requires i < |data|
    requires categories == Categories(data[..i], key)
    requires forall g :: g in grouped <==> g in categories
    requires forall g :: g in grouped ==> grouped[g] == Members(data[..i], key, g)
    ensures var c := KeyOf(key, data[i]);
      var categories' := if c in grouped then categories else categories + [c];
      var grouped' := (if c in grouped then grouped else grouped[c := []])[c := (if c in grouped then grouped[c] else []) + [data[i]]];
      && categories' == Categories(data[..i + 1], key)
      && (forall g :: g in grouped' <==> g in categories')
      && (forall g :: g in grouped' ==> grouped'[g] == Members(data[..i + 1], key, g))
  {
    GroupingStep(data, i, key);
  }

  /** The `map` over the groups that drops demoted ones (`return null`, then `filter(Boolean)`). */
  method KeptGroupNodes(data: seq<AssetRecord>, key: GroupKey, metric: Metric, categories: seq<string>,
                        grouped: map<string, seq<AssetRecord>>, totalValue: real) returns (children: seq<Node>)
    requires forall g :: g in categories ==> g in grouped && grouped[g] == Members(data, key, g)
    requires totalValue == MagnitudeSum(data, metric)
    ensures children == KeptGroups(data, key, metric, categories)
  {
    children := [];
    var j := 0;
    while j < |categories|
      invariant 0 <= j <= |categories|
      invariant children == KeptGroups(data, key, metric, categories[..j])
    {
      assert categories[..j + 1][..j] == categories[..j];
      var category := categories[j];
      var items := grouped[category];
      var categoryValue := MagnitudeSum(items, metric);
      if !IsDemoted(categoryValue, totalValue) {
        children := children + [Node(category, categoryValue, Some(Leaves(items, metric)), Some(GroupFill))];
      }
      j := j + 1;
    }
    assert categories[..|categories|] == categories;
  }

  /** How one more row extends the group labels and the members of each group. */
  lemma GroupingStep(data: seq<AssetRecord>, i: nat, key: GroupKey)
    requires i < |data|
    ensures Categories(data[..i + 1], key) ==
      if KeyOf(key, data[i]) in Categories(data[..i], key) then Categories(data[..i], key)
      else Categories(data[..i], key) + [KeyOf(key, data[i])]
    ensures forall g ::
      Members(data[..i + 1], key, g) == Members(data[..i], key, g) + (if KeyOf(key, data[i]) == g then [data[i]] else [])
    ensures KeyOf(key, data[i]) !in Categories(data[..i], key) ==> Members(data[..i], key, KeyOf(key, data[i])) == []
  {
    assert data[..i + 1] == data[..i] + [data[i]];
    CategoriesAppend(data[..i], data[i], key);
    forall g ensures Members(data[..i + 1], key, g) == Members(data[..i], key, g) + (if KeyOf(key, data[i]) == g then [data[i]] else []) {
      MembersAppend(data[..i], data[i], key, EndingValue, g);
    }
    if KeyOf(key, data[i]) !in Categories(data[..i], key) {
      UnseenCategoryIsEmpty(data[..i], key, KeyOf(key, data[i]));
    }
  }

  lemma CategoriesAppend(d: seq<AssetRecord>, x: AssetRecord, key: GroupKey)
    ensures Categories(d + [x], key) ==
      if KeyOf(key, x) in Categories(d, key) then Categories(d, key) else Categories(d, key) + [KeyOf(key, x)]
  {
    assert Map(d + [x], Category(key))[..|d|] == Map(d, Category(key));
  }

  /** A label not among the group labels has no rows. */
  lemma UnseenCategoryIsEmpty(d: seq<AssetRecord>, key: GroupKey, k: string)
    requires k !in Categories(d, key)
    ensures Members(d, key, k) == []
  {
    DistinctMembers(Map(d, Category(key)));
    forall r | r in d ensures !InCategory(key, k)(r) {
      var n :| 0 <= n < |d| && d[n] == r;
      assert Map(d, Category(key))[n] == KeyOf(key, r);
    }
    FilterNone(d, InCategory(key, k));
  }

  function GroupKeyOf(t: ChartType): GroupKey
  {
    if t == Portfolio then ByAssetClass else BySector
  }

  /** The value view: grouped by 자산분류 or 섹터, sized by the ending value in both cases. */
  method CreateSunburstData(data: seq<AssetRecord>, t: ChartType) returns (root: Node)
    ensures root == Sunburst(data, GroupKeyOf(t), EndingValue)
    ensures root.name == (if t == Portfolio then "자산분류" else "섹터")
  {
    var key := GroupKeyOf(t);
    // Both branches of the source's `valueKey` choose the ending value.
    var metric := if t == Portfolio then EndingValue else EndingValue;
    root := BuildSunburst(data, key, metric);
  }

  /** The performance view: grouped by 자산분류 or 섹터, sized by the contribution. */
  method CreatePerformanceSunburstData(data: seq<AssetRecord>, t: ChartType) returns (root: Node)
    ensures root == Sunburst(data, GroupKeyOf(t), ContributionValue)
    ensures root.name == (if t == Portfolio then "자산분류" else "섹터")
  {
    root := BuildSunburst(data, GroupKeyOf(t), ContributionValue);
  }

  // -----------------------------------------------------------------------
  // Properties of the tree

  /** The summed magnitudes of the groups among `gs`. */
  function SumCategories(data: seq<AssetRecord>, key: GroupKey, metric: Metric, gs: seq<string>): real
  {
    if gs == [] then 0.0
    else SumCategories(data, key, metric, gs[..|gs| - 1]) + MagnitudeSum(Members(data, key, gs[|gs| - 1]), metric)
  }

  /** The summed magnitudes of the demoted groups among `gs`. */
  function DroppedValue(data: seq<AssetRecord>, key: GroupKey, metric: Metric, gs: seq<string>): real
  {
    if gs == [] then 0.0
    else
      var g := gs[|gs| - 1];
      var v := MagnitudeSum(Members(data, key, g), metric);
      DroppedValue(data, key, metric, gs[..|gs| - 1]) + (if IsDemoted(v, MagnitudeSum(data, metric)) then v else 0.0)
  }

  lemma MagnitudeSumNonNegative(items: seq<AssetRecord>, metric: Metric)
    ensures MagnitudeSum(items, metric) >= 0.0
  {
    SumOfNonNegative(items, MagnitudeOf(metric));
  }

  lemma MembersAppend(d: seq<AssetRecord>, x: AssetRecord, key: GroupKey, metric: Metric, g: string)
    ensures Members(d + [x], key, g) == Members(d, key, g) + (if KeyOf(key, x) == g then [x] else [])
    ensures MagnitudeSum(Members(d + [x], key, g), metric) ==
      MagnitudeSum(Members(d, key, g), metric) + (if KeyOf(key, x) == g then Magnitude(metric, x) else 0.0)
  {
    assert (d + [x])[..|d|] == d;
    if KeyOf(key, x) == g {
      var m := Members(d, key, g);
      assert (m + [x])[..|m|] == m;
    }
  }

  lemma {:induction false} SumCategoriesStep(d: seq<AssetRecord>, x: AssetRecord, key: GroupKey, metric: Metric, gs: seq<string>)
    requires NoDuplicates(gs)
    ensures SumCategories(d + [x], key, metric, gs) ==
      SumCategories(d, key, metric, gs) + (if KeyOf(key, x) in gs then Magnitude(metric, x) else 0.0)
  {
    if gs != [] {
      var gs', g := gs[..|gs| - 1], gs[|gs| - 1];
      assert gs == gs' + [g];
      assert NoDuplicates(gs');
      SumCategoriesStep(d, x, key, metric, gs');
      MembersAppend(d, x, key, metric, g);
    }
  }

  lemma SumCategoriesSnoc(data: seq<AssetRecord>, key: GroupKey, metric: Metric, gs: seq<string>, g: string)
    ensures SumCategories(data, key, metric, gs + [g]) ==
      SumCategories(data, key, metric, gs) + MagnitudeSum(Members(data, key, g), metric)
  {
    assert (gs + [g])[..|gs|] == gs;
  }

  /** Every row belongs to exactly one group, so the groups' magnitudes add up to the total. */
  lemma {:induction false} TotalIsSumOfCategories(data: seq<AssetRecord>, key: GroupKey, metric: Metric)
    ensures MagnitudeSum(data, metric) == SumCategories(data, key, metric, Categories(data, key))
  {
    if data != [] {
      var d, x := data[..|data| - 1], data[|data| - 1];
      var k := KeyOf(key, x);
      var cs := Categories(d, key);
      assert data == d + [x];
      assert MagnitudeSum(data, metric) == MagnitudeSum(d, metric) + Magnitude(metric, x);
      TotalIsSumOfCategories(d, key, metric);
      DistinctNoDuplicates(Map(d, Category(key)));
      SumCategoriesStep(d, x, key, metric, cs);
      CategoriesAppend(d, x, key);
      if k !in cs {
        SumCategoriesSnoc(data, key, metric, cs, k);
        MembersAppend(d, x, key, metric, k);
        UnseenCategoryIsEmpty(d, key, k);
        assert MagnitudeSum(Members(d, key, k), metric) == 0.0;
      }
    }
  }

  /** The groups' magnitudes split into what the kept nodes carry and what is dropped. */
  lemma {:induction false} KeptPlusDropped(data: seq<AssetRecord>, key: GroupKey, metric: Metric, gs: seq<string>)
    ensures SumCategories(data, key, metric, gs) ==
      SumOf(KeptGroups(data, key, metric, gs), ValueOf) + DroppedValue(data, key, metric, gs)
    ensures DroppedValue(data, key, metric, gs) >= 0.0
  {
    if gs != [] {
      var gs', g := gs[..|gs| - 1], gs[|gs| - 1];
      KeptPlusDropped(data, key, metric, gs');
      var items := Members(data, key, g);
      MagnitudeSumNonNegative(items, metric);
      var kept' := KeptGroups(data, key, metric, gs');
      if !IsDemoted(MagnitudeSum(items, metric), MagnitudeSum(data, metric)) {
        SumOfAppend(kept', [GroupNode(g, items, metric)], ValueOf);
        assert SumOf([GroupNode(g, items, metric)], ValueOf) == MagnitudeSum(items, metric);
      }
    }
  }

  /** The root is named after the grouping column, has no colour and carries the total magnitude
      of all rows; its children are the kept groups followed by a childless grey '기타' node holding
      exactly the magnitude of the dropped groups, present only when that is positive. */
  lemma SunburstShape(data: seq<AssetRecord>, key: GroupKey, metric: Metric)
    ensures Sunburst(data, key, metric).name == Label(key)
    ensures Sunburst(data, key, metric).fill == None
    ensures Sunburst(data, key, metric).value == MagnitudeSum(data, metric) >= 0.0
    ensures var kept := KeptGroups(data, key, metric, Categories(data, key));
            var dropped := DroppedValue(data, key, metric, Categories(data, key));
            Sunburst(data, key, metric).children == Some(if dropped > 0.0 then kept + [OtherNode(dropped)] else kept)
  {
    TotalIsSumOfCategories(data, key, metric);
    KeptPlusDropped(data, key, metric, Categories(data, key));
    MagnitudeSumNonNegative(data, metric);
  }

  /** The top-level children add up exactly to the root's value. */
  lemma ChildrenSumToRoot(data: seq<AssetRecord>, key: GroupKey, metric: Metric)
    ensures Sunburst(data, key, metric).children.Some?
    ensures SumOf(Sunburst(data, key, metric).children.value, ValueOf) == Sunburst(data, key, metric).value
  {
    var kept := KeptGroups(data, key, metric, Categories(data, key));
    var dropped := DroppedValue(data, key, metric, Categories(data, key));
    SunburstShape(data, key, metric);
    TotalIsSumOfCategories(data, key, metric);
    KeptPlusDropped(data, key, metric, Categories(data, key));
    if dropped > 0.0 {
      SumOfAppend(kept, [OtherNode(dropped)], ValueOf);
      assert SumOf([OtherNode(dropped)], ValueOf) == dropped;
    }
  }

  /** A group is dropped exactly when the total is positive and the group holds under 5% of it;
      a zero total drops nothing. */
  lemma DemotionRule(categoryValue: real, totalValue: real)
    requires 0.0 <= categoryValue && 0.0 <= totalValue
    ensures IsDemoted(categoryValue, totalValue) <==> totalValue > 0.0 && categoryValue * 20.0 < totalValue
  {
    if totalValue > 0.0 {
      var share := categoryValue / totalValue;
      assert share * totalValue == categoryValue;
      assert share * 100.0 < 5.0 <==> share * totalValue * 20.0 < totalValue;
    }
  }

  predicate IsKept(data: seq<AssetRecord>, key: GroupKey, metric: Metric, g: string)
  {
    !IsDemoted(MagnitudeSum(Members(data, key, g), metric), MagnitudeSum(data, metric))
  }

  function NameOf(n: Node): string { n.name }

  /** The kept nodes are named after the kept groups, in first-seen order, and each is the
      group's node built from the group's own rows. */
  lemma KeptGroupsInOrder(data: seq<AssetRecord>, key: GroupKey, metric: Metric, gs: seq<string>)
    ensures Map(KeptGroups(data, key, metric, gs), NameOf) == Filter(gs, KeptIn(data, key, metric))
    ensures forall n :: n in KeptGroups(data, key, metric, gs) ==>
      n.name in gs && IsKept(data, key, metric, n.name) && n == GroupNode(n.name, Members(data, key, n.name), metric)
  {
    KeptGroupNames(data, key, metric, gs);
    KeptGroupShapes(data, key, metric, gs);
  }

  function KeptIn(data: seq<AssetRecord>, key: GroupKey, metric: Metric): string -> bool
  {
    (g: string) => IsKept(data, key, metric, g)
  }

  lemma {:induction false} KeptGroupNames(data: seq<AssetRecord>, key: GroupKey, metric: Metric, gs: seq<string>)
    ensures Map(KeptGroups(data, key, metric, gs), NameOf) == Filter(gs, KeptIn(data, key, metric))
  {
    if gs != [] {
      var gs', g := gs[..|gs| - 1], gs[|gs| - 1];
      KeptGroupNames(data, key, metric, gs');
      var kept' := KeptGroups(data, key, metric, gs');
      if IsKept(data, key, metric, g) {
        var node := GroupNode(g, Members(data, key, g), metric);
        assert (kept' + [node])[..|kept'|] == kept';
      }
    }
  }

  lemma {:induction false} KeptGroupShapes(data: seq<AssetRecord>, key: GroupKey, metric: Metric, gs: seq<string>)
    ensures forall n :: n in KeptGroups(data, key, metric, gs) ==>
      n.name in gs && IsKept(data, key, metric, n.name) && n == GroupNode(n.name, Members(data, key, n.name), metric)
  {
    if gs != [] {
      var gs', g := gs[..|gs| - 1], gs[|gs| - 1];
      KeptGroupShapes(data, key, metric, gs');
    }
  }

  /** A kept group's node is blue and is worth the sum of its leaves. Its leaves are its rows of
      nonzero magnitude, in input order, each named after its item, sized by its magnitude,
      childless, and green when its contribution is not negative and red otherwise. */
  lemma GroupNodeLeaves(g: string, items: seq<AssetRecord>, metric: Metric)
    ensures GroupNode(g, items, metric).name == g
    ensures GroupNode(g, items, metric).fill == Some(GroupFill)
    ensures GroupNode(g, items, metric).children == Some(Leaves(items, metric))
    ensures SumOf(Leaves(items, metric), ValueOf) == GroupNode(g, items, metric).value
    ensures var shown := Filter(items, IsNonzero(metric));
            var leaves := Leaves(items, metric);
            && IsSubsequence(shown, items)
            && (forall r :: r in items && Magnitude(metric, r) != 0.0 ==> r in shown)
            && |leaves| == |shown|
            && forall k :: 0 <= k < |leaves| ==>
                 && leaves[k].name == shown[k].itemName
                 && leaves[k].value == Magnitude(metric, shown[k]) > 0.0
                 && leaves[k].children == None
                 && leaves[k].fill == Some(if shown[k].contribution >= 0.0 then Gain else Loss)
  {
    LeavesSum(items, metric);
    ShownMembers(items, metric);
    LeafShapes(items, metric);
  }

  lemma LeafShapes(items: seq<AssetRecord>, metric: Metric)
    ensures var shown := Filter(items, IsNonzero(metric));
            var leaves := Leaves(items, metric);
            && |leaves| == |shown|
            && forall k :: 0 <= k < |leaves| ==>
                 && leaves[k].name == shown[k].itemName
                 && leaves[k].value == Magnitude(metric, shown[k]) > 0.0
                 && leaves[k].children == None
                 && leaves[k].fill == Some(if shown[k].contribution >= 0.0 then Gain else Loss)
  {
    var shown := Filter(items, IsNonzero(metric));
    var leaves := Leaves(items, metric);
    forall k | 0 <= k < |leaves|
      ensures leaves[k] == Node(shown[k].itemName, Magnitude(metric, shown[k]), None, Some(LeafFill(shown[k].contribution)))
      ensures Magnitude(metric, shown[k]) > 0.0
    {
      assert shown[k] in shown;
    }
  }

  lemma LeavesSum(items: seq<AssetRecord>, metric: Metric)
    ensures SumOf(Leaves(items, metric), ValueOf) == MagnitudeSum(items, metric)
  {
    var shown := Filter(items, IsNonzero(metric));
    SumOfMap(shown, Leaf(metric), ValueOf, MagnitudeOf(metric));
    SumOfDropZeros(items, IsNonzero(metric), MagnitudeOf(metric));
  }

  lemma ShownMembers(items: seq<AssetRecord>, metric: Metric)
    ensures IsSubsequence(Filter(items, IsNonzero(metric)), items)
    ensures forall r :: r in items && Magnitude(metric, r) != 0.0 ==> r in Filter(items, IsNonzero(metric))
  {
    var shown := Filter(items, IsNonzero(metric));
    FilterIsSubsequence(items, IsNonzero(metric));
    FilterMultiset(items, IsNonzero(metric));
    forall r | r in items && Magnitude(metric, r) != 0.0 ensures r in shown {
      assert multiset(items)[r] > 0;
    }
  }

  function EmptyGroup(g: string): Node
  {
    Node(g, 0.0, Some([]), Some(GroupFill))
  }

  lemma {:induction false} ZeroSumHasZeroTerms(items: seq<AssetRecord>, metric: Metric)
    requires MagnitudeSum(items, metric) == 0.0
    ensures forall r :: r in items ==> Magnitude(metric, r) == 0.0
  {
    if items != [] {
      var items' := items[..|items| - 1];
      MagnitudeSumNonNegative(items', metric);
      ZeroSumHasZeroTerms(items', metric);
      assert items == items' + [items[|items| - 1]];
    }
  }

  lemma {:induction false} ZeroTotalGroups(data: seq<AssetRecord>, key: GroupKey, metric: Metric, gs: seq<string>)
    requires MagnitudeSum(data, metric) == 0.0
    ensures KeptGroups(data, key, metric, gs) == Map(gs, EmptyGroup)
  {
    if gs != [] {
      var g := gs[|gs| - 1];
      ZeroTotalGroups(data, key, metric, gs[..|gs| - 1]);
      ZeroSumHasZeroTerms(data, metric);
      var items := Members(data, key, g);
      forall r | r in items ensures Magnitude(metric, r) == 0.0 && !IsNonzero(metric)(r) {
      }
      FilterNone(items, IsNonzero(metric));
      SumOfDropZeros(items, IsNonzero(metric), MagnitudeOf(metric));
    }
  }

  /** With a zero total every share is NaN, so no group is dropped: every group is kept, worth 0,
      with no leaves, and there is no '기타'. */
  lemma ZeroTotalKeepsEveryGroup(data: seq<AssetRecord>, key: GroupKey, metric: Metric)
    requires MagnitudeSum(data, metric) == 0.0
    ensures Sunburst(data, key, metric).children == Some(Map(Categories(data, key), EmptyGroup))
  {
    ZeroTotalGroups(data, key, metric, Categories(data, key));
    SumOfNonNegative(Map(Categories(data, key), EmptyGroup), ValueOf);
    SumOfMap(Categories(data, key), EmptyGroup, ValueOf, (g: string) => 0.0);
    ZeroSum(Categories(data, key));
  }

  lemma {:induction false} ZeroSum(gs: seq<string>)
    ensures SumOf(gs, (g: string) => 0.0) == 0.0
  {
    if gs != [] {
      ZeroSum(gs[..|gs| - 1]);
    }
  }
}
