/**
 * Small worked inputs for the builders: a ranking, a demotion, and one
 * investor's three rows taken through the summary, the ranked list and
 * both two-level trees.
 */
module Scenarios {
  import opened Wrappers
  import opened Seqs
  import opened AssetData
  import DataProcessor
  import Sunburst

  function Row(investor: string, name: string, assetClass: string, endValue: real, contribution: real): AssetRecord
  {
    AssetRecord(investor, name, "KRW", "2024-01-01", "2024-12-31", 0.0, endValue, contribution, "", assetClass, 0.0)
  }

  // -----------------------------------------------------------------------
  // Unfolding the combinators on short literal sequences

  lemma Prefixes<T>(a: T, b: T, c: T, d: T)
    ensures [a, b, c, d][..3] == [a, b, c] && [a, b, c][..2] == [a, b] && [a, b][..1] == [a] && [a][..0] == []
  {
  }

  lemma FilterOfFour<T(!new)>(a: T, b: T, c: T, d: T, p: T -> bool)
    ensures Filter([a], p) == (if p(a) then [a] else [])
    ensures Filter([a, b], p) == Filter([a], p) + (if p(b) then [b] else [])
    ensures Filter([a, b, c], p) == Filter([a, b], p) + (if p(c) then [c] else [])
    ensures Filter([a, b, c, d], p) == Filter([a, b, c], p) + (if p(d) then [d] else [])
  {
    Prefixes(a, b, c, d);
  }

  lemma SumOfFour<T>(a: T, b: T, c: T, d: T, f: T -> real)
    ensures SumOf([a], f) == f(a)
    ensures SumOf([a, b], f) == f(a) + f(b)
    ensures SumOf([a, b, c], f) == f(a) + f(b) + f(c)
    ensures SumOf([a, b, c, d], f) == f(a) + f(b) + f(c) + f(d)
  {
    Prefixes(a, b, c, d);
  }

  // -----------------------------------------------------------------------
  // Ranking

  /** Ending values 300, 100 and 500 are ranked 500, 300, 100. */
  lemma RankingExample()
    ensures var data := [Row("A", "x", "c", 300.0, 0.0), Row("A", "y", "c", 100.0, 0.0), Row("A", "z", "c", 500.0, 0.0)];
      DataProcessor.Treemap(data, DataProcessor.Current) == [
        TreemapEntry("z", 500.0, 0.0, Neutral),
        TreemapEntry("x", 300.0, 0.0, Neutral),
        TreemapEntry("y", 100.0, 0.0, Neutral)]
  {
    var x, y, z := Row("A", "x", "c", 300.0, 0.0), Row("A", "y", "c", 100.0, 0.0), Row("A", "z", "c", 500.0, 0.0);
    var data := [x, y, z];
    var f := DataProcessor.ToEntry(DataProcessor.Current);
    FilterAll(data, DataProcessor.IsShown(DataProcessor.Current));
    var ex, ey, ez := f(x), f(y), f(z);
    assert DataProcessor.TreemapEntries(data, DataProcessor.Current) == [ex, ey, ez];
    Prefixes(ex, ey, ez, ez);
    assert DataProcessor.SortedByValue([ex]) == [ex];
    assert DataProcessor.SortedByValue([ex, ey]) == [ex, ey];
    assert DataProcessor.Insert(ez, [ex]) == [ez, ex];
    assert DataProcessor.Insert(ez, [ex, ey]) == [ez, ex, ey];
  }

  // -----------------------------------------------------------------------
  // Demotion

  const P: AssetRecord := Row("A", "a", "p", 60.0, 0.0)
  const Q: AssetRecord := Row("A", "b", "q", 30.0, 0.0)
  const R: AssetRecord := Row("A", "c", "r", 4.0, 0.0)
  const S: AssetRecord := Row("A", "d", "s", 6.0, 0.0)

  function SingleLeafGroup(g: string, name: string, v: real): Node
  {
    Node(g, v, Some([Node(name, v, None, Some(Gain))]), Some(GroupFill))
  }

  lemma SingleRowGroup(r: AssetRecord)
    requires r.endValue > 0.0 && r.contribution == 0.0
    ensures Sunburst.GroupNode(r.assetClass, [r], Sunburst.EndingValue) == SingleLeafGroup(r.assetClass, r.itemName, r.endValue)
  {
    var m := Sunburst.EndingValue;
    FilterOfFour(r, r, r, r, Sunburst.IsNonzero(m));
    SumOfFour(r, r, r, r, Sunburst.MagnitudeOf(m));
    assert Sunburst.Leaves([r], m) == [Sunburst.Leaf(m)(r)];
  }

  lemma DemotionGroups()
    ensures Sunburst.Categories([P, Q, R, S], Sunburst.ByAssetClass) == ["p", "q", "r", "s"]
    ensures Sunburst.MagnitudeSum([P, Q, R, S], Sunburst.EndingValue) == 100.0
  {
    var gs := ["p", "q", "r", "s"];
    assert Map([P, Q, R, S], Sunburst.Category(Sunburst.ByAssetClass)) == gs;
    DistinctOfNoDuplicates(gs);
    SumOfFour(P, Q, R, S, Sunburst.MagnitudeOf(Sunburst.EndingValue));
  }

  lemma DemotionMember(r: AssetRecord)
    requires r in [P, Q, R, S]
    ensures Sunburst.Members([P, Q, R, S], Sunburst.ByAssetClass, r.assetClass) == [r]
    ensures Sunburst.MagnitudeSum([r], Sunburst.EndingValue) == r.endValue
  {
    DemotionFilter(r.assetClass);
    SumOfFour(r, r, r, r, Sunburst.MagnitudeOf(Sunburst.EndingValue));
  }

  lemma DemotionFilter(g: string)
    ensures Sunburst.Members([P, Q, R, S], Sunburst.ByAssetClass, g) ==
      (if g == "p" then [P] else []) + (if g == "q" then [Q] else []) + (if g == "r" then [R] else []) + (if g == "s" then [S] else [])
  {
    FilterOfFour(P, Q, R, S, Sunburst.InCategory(Sunburst.ByAssetClass, g));
  }

  lemma KeptStep(data: seq<AssetRecord>, key: Sunburst.GroupKey, m: Sunburst.Metric, gs: seq<string>, g: string)
    ensures Sunburst.KeptGroups(data, key, m, gs + [g]) ==
      Sunburst.KeptGroups(data, key, m, gs) +
      (if Sunburst.IsKept(data, key, m, g) then [Sunburst.GroupNode(g, Sunburst.Members(data, key, g), m)] else [])
  {
    assert (gs + [g])[..|gs|] == gs;
  }

  lemma DemotionStep(data: seq<AssetRecord>, gs: seq<string>, r: AssetRecord)
    requires data == [P, Q, R, S] && r in data
    ensures Sunburst.KeptGroups(data, Sunburst.ByAssetClass, Sunburst.EndingValue, gs + [r.assetClass]) ==
      Sunburst.KeptGroups(data, Sunburst.ByAssetClass, Sunburst.EndingValue, gs) +
      (if r.endValue * 20.0 >= 100.0 then [SingleLeafGroup(r.assetClass, r.itemName, r.endValue)] else [])
  {
    DemotionGroups();
    DemotionMember(r);
    Sunburst.DemotionRule(r.endValue, 100.0);
    SingleRowGroup(r);
    KeptStep(data, Sunburst.ByAssetClass, Sunburst.EndingValue, gs, r.assetClass);
  }

  lemma DemotionKeptTwo(data: seq<AssetRecord>)
    requires data == [P, Q, R, S]
    ensures Sunburst.KeptGroups(data, Sunburst.ByAssetClass, Sunburst.EndingValue, ["p", "q"]) ==
      [SingleLeafGroup("p", "a", 60.0), SingleLeafGroup("q", "b", 30.0)]
  {
    assert [] + [P.assetClass] == ["p"] && ["p"] + [Q.assetClass] == ["p", "q"];
    assert Sunburst.KeptGroups(data, Sunburst.ByAssetClass, Sunburst.EndingValue, []) == [];
    DemotionStep(data, [], P);
    DemotionStep(data, ["p"], Q);
  }

  lemma DemotionKept(data: seq<AssetRecord>)
    requires data == [P, Q, R, S]
    ensures Sunburst.KeptGroups(data, Sunburst.ByAssetClass, Sunburst.EndingValue, ["p", "q", "r", "s"]) ==
      [SingleLeafGroup("p", "a", 60.0), SingleLeafGroup("q", "b", 30.0), SingleLeafGroup("s", "d", 6.0)]
  {
    assert ["p", "q"] + [R.assetClass] == ["p", "q", "r"] && ["p", "q", "r"] + [S.assetClass] == ["p", "q", "r", "s"];
    DemotionKeptTwo(data);
    DemotionStep(data, ["p", "q"], R);
    DemotionStep(data, ["p", "q", "r"], S);
  }

  /** Groups holding 60, 30, 4 and 6 of a total of 100: only the 4 percent group is dropped, and
      the catch-all node after the kept groups carries exactly its 4. */
  lemma DemotionExample(data: seq<AssetRecord>, kept: seq<Node>)
    requires data == [P, Q, R, S]
    requires kept == [SingleLeafGroup("p", "a", 60.0), SingleLeafGroup("q", "b", 30.0), SingleLeafGroup("s", "d", 6.0)]
    ensures var root := Sunburst.Sunburst(data, Sunburst.ByAssetClass, Sunburst.EndingValue);
      root.value == 100.0 && root.children == Some(kept + [Node("기타", 4.0, None, Some(OtherFill))])
  {
    DemotionGroups();
    DemotionKept(data);
    SumOfFour(kept[0], kept[1], kept[2], kept[2], ValueOf);
    Sunburst.SunburstFromParts(data, Sunburst.ByAssetClass, Sunburst.EndingValue, 100.0, kept);
  }

  // -----------------------------------------------------------------------
  // One investor end to end

  const S1: AssetRecord := Row("A", "s1", "stock", 200000.0, 100000.0)
  const S2: AssetRecord := Row("A", "s2", "stock", 100000.0, -20000.0)
  const C: AssetRecord := Row("A", "c", "cash", 50000.0, 0.0)
  const Other: AssetRecord := Row("B", "o", "stock", 999.0, 1.0)

  /** Investor "A" with two stock rows (200000 gaining 100000, 100000 losing 20000) and one cash
      row (50000, no contribution), next to another investor's row. */
  function ScenarioData(): seq<AssetRecord>
  {
    [S1, Other, S2, C]
  }

  lemma ScenarioSummary()
    ensures var p := DataProcessor.ProcessAssetData(ScenarioData(), "A");
      && p.filteredData == [S1, S2, C]
      && p.summary.totalCurrent == 350000.0
      && p.summary.totalReturn == 80000.0
      && p.summary.growthRate == 0.0
  {
    ScenarioRows();
    SumOfFour(S1, S2, C, C, DataProcessor.StartValue);
    SumOfFour(S1, S2, C, C, DataProcessor.EndValue);
    SumOfFour(S1, S2, C, C, DataProcessor.ContributionOf);
  }

  lemma ScenarioRows()
    ensures Filter(ScenarioData(), DataProcessor.BelongsTo("A")) == [S1, S2, C]
  {
    var p := DataProcessor.BelongsTo("A");
    assert p(S1) && !p(Other) && p(S2) && p(C);
    FilterOfFour(S1, Other, S2, C, p);
    assert Filter([S1, Other], p) == [S1];
    assert Filter([S1, Other, S2], p) == [S1, S2];
  }

  lemma ScenarioLabels()
    ensures Map([S1, S2, C], Sunburst.Category(Sunburst.ByAssetClass)) == ["stock", "stock", "cash"]
  {
  }

  lemma DistinctLabels()
    ensures Distinct(["stock", "stock", "cash"]) == ["stock", "cash"]
  {
    assert ["stock", "stock", "cash"][..2] == ["stock", "stock"];
    assert ["stock", "stock"][..1] == ["stock"];
    assert ["stock"][..0] == [];
  }

  lemma ScenarioMembers(g: string)
    ensures Sunburst.Members([S1, S2, C], Sunburst.ByAssetClass, g) ==
      (if g == "stock" then [S1, S2] else if g == "cash" then [C] else [])
  {
    FilterOfFour(S1, S2, C, C, Sunburst.InCategory(Sunburst.ByAssetClass, g));
  }

  /** The rows group into stock (two rows) and cash (one row), in that order. */
  lemma ScenarioGroups(rows: seq<AssetRecord>)
    requires rows == [S1, S2, C]
    ensures Sunburst.Categories(rows, Sunburst.ByAssetClass) == ["stock", "cash"]
    ensures Sunburst.Members(rows, Sunburst.ByAssetClass, "stock") == [S1, S2]
    ensures Sunburst.Members(rows, Sunburst.ByAssetClass, "cash") == [C]
  {
    ScenarioLabels();
    DistinctLabels();
    ScenarioMembers("stock");
    ScenarioMembers("cash");
  }

  lemma ScenarioSums(m: Sunburst.Metric)
    ensures Sunburst.MagnitudeSum([S1, S2, C], m) == Sunburst.Magnitude(m, S1) + Sunburst.Magnitude(m, S2) + Sunburst.Magnitude(m, C)
    ensures Sunburst.MagnitudeSum([S1, S2], m) == Sunburst.Magnitude(m, S1) + Sunburst.Magnitude(m, S2)
    ensures Sunburst.MagnitudeSum([C], m) == Sunburst.Magnitude(m, C)
  {
    SumOfFour(S1, S2, C, C, Sunburst.MagnitudeOf(m));
    SumOfFour(C, C, C, C, Sunburst.MagnitudeOf(m));
  }

  lemma ScenarioTotal(rows: seq<AssetRecord>, m: Sunburst.Metric)
    requires rows == [S1, S2, C]
    ensures Sunburst.MagnitudeSum(rows, m) == if m == Sunburst.EndingValue then 350000.0 else 120000.0
  {
    ScenarioSums(m);
  }

  lemma ScenarioLeaves(m: Sunburst.Metric)
    ensures Sunburst.Leaves([S1, S2], m) == [Sunburst.Leaf(m)(S1), Sunburst.Leaf(m)(S2)]
    ensures Sunburst.Leaves([C], m) == if m == Sunburst.EndingValue then [Sunburst.Leaf(m)(C)] else []
  {
    StockShown(m);
    CashShown(m);
  }

  lemma StockShown(m: Sunburst.Metric)
    ensures Filter([S1, S2], Sunburst.IsNonzero(m)) == [S1, S2]
  {
    FilterOfFour(S1, S2, C, C, Sunburst.IsNonzero(m));
  }

  lemma CashShown(m: Sunburst.Metric)
    ensures Filter([C], Sunburst.IsNonzero(m)) == if m == Sunburst.EndingValue then [C] else []
  {
    FilterOfFour(C, C, C, C, Sunburst.IsNonzero(m));
  }

  lemma ScenarioKept(rows: seq<AssetRecord>, m: Sunburst.Metric)
    requires rows == [S1, S2, C]
    ensures Sunburst.KeptGroups(rows, Sunburst.ByAssetClass, m, ["stock", "cash"]) ==
      [Sunburst.GroupNode("stock", [S1, S2], m)] +
      (if m == Sunburst.EndingValue then [Sunburst.GroupNode("cash", [C], m)] else [])
  {
    StockKept(rows, m);
    CashStep(rows, m);
  }

  /** The stock group is kept on either metric. */
  lemma StockKept(rows: seq<AssetRecord>, m: Sunburst.Metric)
    requires rows == [S1, S2, C]
    ensures Sunburst.KeptGroups(rows, Sunburst.ByAssetClass, m, ["stock"]) == [Sunburst.GroupNode("stock", [S1, S2], m)]
  {
    var key := Sunburst.ByAssetClass;
    ScenarioGroups(rows);
    ScenarioTotal(rows, m);
    ScenarioSums(m);
    Sunburst.DemotionRule(Sunburst.MagnitudeSum([S1, S2], m), Sunburst.MagnitudeSum(rows, m));
    assert Sunburst.IsKept(rows, key, m, "stock");
    assert [] + ["stock"] == ["stock"];
    KeptStep(rows, key, m, [], "stock");
  }

  /** The cash group is kept on ending value and dropped on contribution, where it is worth 0. */
  lemma CashStep(rows: seq<AssetRecord>, m: Sunburst.Metric)
    requires rows == [S1, S2, C]
    ensures Sunburst.KeptGroups(rows, Sunburst.ByAssetClass, m, ["stock", "cash"]) ==
      Sunburst.KeptGroups(rows, Sunburst.ByAssetClass, m, ["stock"]) +
      (if m == Sunburst.EndingValue then [Sunburst.GroupNode("cash", [C], m)] else [])
  {
    var key := Sunburst.ByAssetClass;
    ScenarioGroups(rows);
    ScenarioTotal(rows, m);
    ScenarioSums(m);
    Sunburst.DemotionRule(Sunburst.MagnitudeSum([C], m), Sunburst.MagnitudeSum(rows, m));
    assert Sunburst.IsKept(rows, key, m, "cash") <==> m == Sunburst.EndingValue;
    assert ["stock"] + ["cash"] == ["stock", "cash"];
    KeptStep(rows, key, m, ["stock"], "cash");
  }

  lemma ScenarioValueGroups(stock: Node, cash: Node)
    requires stock == Node("stock", 300000.0, Some([Node("s1", 200000.0, None, Some(Gain)), Node("s2", 100000.0, None, Some(Loss))]), Some(GroupFill))
    requires cash == Node("cash", 50000.0, Some([Node("c", 50000.0, None, Some(Gain))]), Some(GroupFill))
    ensures Sunburst.GroupNode("stock", [S1, S2], Sunburst.EndingValue) == stock
    ensures Sunburst.GroupNode("cash", [C], Sunburst.EndingValue) == cash
  {
    ScenarioSums(Sunburst.EndingValue);
    ScenarioLeaves(Sunburst.EndingValue);
  }

  lemma ScenarioValueKept(rows: seq<AssetRecord>, stock: Node, cash: Node)
    requires rows == DataProcessor.ProcessAssetData(ScenarioData(), "A").filteredData
    requires stock == Node("stock", 300000.0, Some([Node("s1", 200000.0, None, Some(Gain)), Node("s2", 100000.0, None, Some(Loss))]), Some(GroupFill))
    requires cash == Node("cash", 50000.0, Some([Node("c", 50000.0, None, Some(Gain))]), Some(GroupFill))
    ensures Sunburst.KeptGroups(rows, Sunburst.ByAssetClass, Sunburst.EndingValue, Sunburst.Categories(rows, Sunburst.ByAssetClass)) == [stock, cash]
    ensures SumOf([stock, cash], ValueOf) == 350000.0
  {
    ScenarioSummary();
    ScenarioKept(rows, Sunburst.EndingValue);
    ScenarioValueGroups(stock, cash);
    ScenarioGroups(rows);
    SumOfFour(stock, cash, cash, cash, ValueOf);
  }

  /** By value, both groups survive and no catch-all node appears; the cash leaf counts as a gain. */
  lemma ScenarioValueTree(rows: seq<AssetRecord>, stock: Node, cash: Node)
    requires rows == DataProcessor.ProcessAssetData(ScenarioData(), "A").filteredData
    requires stock == Node("stock", 300000.0, Some([Node("s1", 200000.0, None, Some(Gain)), Node("s2", 100000.0, None, Some(Loss))]), Some(GroupFill))
    requires cash == Node("cash", 50000.0, Some([Node("c", 50000.0, None, Some(Gain))]), Some(GroupFill))
    ensures Sunburst.Sunburst(rows, Sunburst.ByAssetClass, Sunburst.EndingValue) == Node("자산분류", 350000.0, Some([stock, cash]), None)
  {
    ScenarioSummary();
    ScenarioTotal(rows, Sunburst.EndingValue);
    ScenarioValueKept(rows, stock, cash);
    Sunburst.SunburstFromParts(rows, Sunburst.ByAssetClass, Sunburst.EndingValue, 350000.0, [stock, cash]);
  }

  /** By contribution, the cash group has no mass and is dropped, and since it has none there is
      no catch-all node either. */
  lemma ScenarioContributionTree(rows: seq<AssetRecord>, stock: Node)
    requires rows == DataProcessor.ProcessAssetData(ScenarioData(), "A").filteredData
    requires stock == Node("stock", 120000.0, Some([Node("s1", 100000.0, None, Some(Gain)), Node("s2", 20000.0, None, Some(Loss))]), Some(GroupFill))
    ensures Sunburst.Sunburst(rows, Sunburst.ByAssetClass, Sunburst.ContributionValue) == Node("자산분류", 120000.0, Some([stock]), None)
  {
    var m := Sunburst.ContributionValue;
    ScenarioSummary();
    ScenarioGroups(rows);
    ScenarioTotal(rows, m);
    ScenarioLeaves(m);
    ScenarioKept(rows, m);
    assert Sunburst.GroupNode("stock", [S1, S2], m) == stock;
    SumOfFour(stock, stock, stock, stock, ValueOf);
    Sunburst.SunburstFromParts(rows, Sunburst.ByAssetClass, m, 120000.0, [stock]);
  }

  /** The ranked contribution list leaves the cash row out and marks the loss. */
  lemma ScenarioContributionRanking(rows: seq<AssetRecord>)
    requires rows == DataProcessor.ProcessAssetData(ScenarioData(), "A").filteredData
    ensures DataProcessor.Treemap(rows, DataProcessor.Contribution) == [
      TreemapEntry("s1", 100000.0, 100000.0, Gain),
      TreemapEntry("s2", 20000.0, -20000.0, Loss)]
  {
    ScenarioSummary();
    var f := DataProcessor.ToEntry(DataProcessor.Contribution);
    ContributionEntries(rows);
    Prefixes(f(S1), f(S2), f(S2), f(S2));
    assert DataProcessor.SortedByValue([f(S1)]) == [f(S1)];
    assert DataProcessor.Insert(f(S2), [f(S1)]) == [f(S1), f(S2)];
  }

  lemma ContributionEntries(rows: seq<AssetRecord>)
    requires rows == [S1, S2, C]
    ensures var f := DataProcessor.ToEntry(DataProcessor.Contribution);
      DataProcessor.TreemapEntries(rows, DataProcessor.Contribution) == [f(S1), f(S2)]
  {
    FilterOfFour(S1, S2, C, C, DataProcessor.IsShown(DataProcessor.Contribution));
  }
}
