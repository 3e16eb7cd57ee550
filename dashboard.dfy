/**
 * The composition in src/components/Dashboard.tsx: the list of investors
 * offered for selection, the initial selection, and the six views that are
 * all computed from the one filtered set of rows.
 *
 * The selection is an `Option`: before any data is loaded `investors[0]` is
 * `undefined`, and `processAssetData` with an `undefined` investor matches
 * no row.
 */
module Dashboard {
  import opened Wrappers
  import opened Seqs
  import opened AssetData
  import DataProcessor
  import Sunburst

  function InvestorOf(r: AssetRecord): string { r.investor }

  /** `[...new Set(data.map(item => item.투자자))]` */
  function Investors(data: seq<AssetRecord>): seq<string>
  {
    Distinct(Map(data, InvestorOf))
  }

  /** `useState(investors[0])` */
  function InitialSelection(data: seq<AssetRecord>): Option<string>
  {
    if |Investors(data)| > 0 then Some(Investors(data)[0]) else None
  }

  /** The summary and the six views the page renders. */
  datatype Views = Views(
    processed: DataProcessor.Processed,
    currentTreemap: seq<TreemapEntry>,
    contributionTreemap: seq<TreemapEntry>,
    portfolioAsset: Node,
    portfolioSector: Node,
    performanceAsset: Node,
    performanceSector: Node)

  const NoSummary: DataProcessor.Summary := DataProcessor.Summary(0.0, 0.0, 0.0, 0.0)

  /** `processAssetData(data, selectedInvestor)`, where an `undefined` investor matches nothing. */
  function Process(data: seq<AssetRecord>, selected: Option<string>): DataProcessor.Processed
  {
    match selected
    case None => DataProcessor.Processed([], NoSummary)
    case Some(investor) => DataProcessor.ProcessAssetData(data, investor)
  }

  /** Every view is computed from the same `filteredData`. */
  function DashboardViews(data: seq<AssetRecord>, selected: Option<string>): Views
  {
    var processed := Process(data, selected);
    var rows := processed.filteredData;
    Views(
      processed,
      DataProcessor.Treemap(rows, DataProcessor.Current),
      DataProcessor.Treemap(rows, DataProcessor.Contribution),
      Sunburst.Sunburst(rows, Sunburst.GroupKeyOf(Sunburst.Portfolio), Sunburst.EndingValue),
      Sunburst.Sunburst(rows, Sunburst.GroupKeyOf(Sunburst.Sector), Sunburst.EndingValue),
      Sunburst.Sunburst(rows, Sunburst.GroupKeyOf(Sunburst.Portfolio), Sunburst.ContributionValue),
      Sunburst.Sunburst(rows, Sunburst.GroupKeyOf(Sunburst.Sector), Sunburst.ContributionValue))
  }

  /** The body of the component: one call to each builder on the filtered rows. */
  method ComposeViews(data: seq<AssetRecord>, selected: Option<string>) returns (v: Views)
    ensures v == DashboardViews(data, selected)
  {
    var processed := Process(data, selected);
    var rows := processed.filteredData;
    var currentTreemap := DataProcessor.CreateTreemapData(rows, DataProcessor.Current);
    var contributionTreemap := DataProcessor.CreateTreemapData(rows, DataProcessor.Contribution);
    var portfolioAsset := Sunburst.CreateSunburstData(rows, Sunburst.Portfolio);
    var portfolioSector := Sunburst.CreateSunburstData(rows, Sunburst.Sector);
    var performanceAsset := Sunburst.CreatePerformanceSunburstData(rows, Sunburst.Portfolio);
    var performanceSector := Sunburst.CreatePerformanceSunburstData(rows, Sunburst.Sector);
    v := Views(processed, currentTreemap, contributionTreemap, portfolioAsset, portfolioSector,
               performanceAsset, performanceSector);
  }

  // -----------------------------------------------------------------------
  // The investor list and the initial selection

  /** Each investor is listed once, exactly the investors that have a row are listed, in order of
      their first row, and the list is empty only when there is no data. */
  lemma InvestorList(data: seq<AssetRecord>)
    ensures NoDuplicates(Investors(data))
    ensures forall x :: x in Investors(data) <==> exists r :: r in data && r.investor == x
    ensures InFirstSeenOrder(Investors(data), Map(data, InvestorOf))
    ensures |Investors(data)| == 0 <==> |data| == 0
  {
    var names := Map(data, InvestorOf);
    DistinctNoDuplicates(names);
    DistinctMembers(names);
    DistinctFirstSeenOrder(names);
    forall x ensures x in Investors(data) <==> exists r :: r in data && r.investor == x {
      if x in names {
        var k :| 0 <= k < |names| && names[k] == x;
        assert data[k] in data;
      }
      if exists r :: r in data && r.investor == x {
        var r :| r in data && r.investor == x;
        var k :| 0 <= k < |data| && data[k] == r;
        assert names[k] == x;
      }
    }
    if |data| > 0 {
      assert data[0] in data;
    }
  }

  /** An investor has rows in the filtered view exactly when the list offers them. */
  lemma OfferedInvestorsHaveRows(data: seq<AssetRecord>, investor: string)
    ensures investor in Investors(data) <==> |DataProcessor.ProcessAssetData(data, investor).filteredData| > 0
  {
    InvestorList(data);
    var rows := DataProcessor.ProcessAssetData(data, investor).filteredData;
    DataProcessor.FilteredDataIsInvestorRows(data, investor);
    if investor in Investors(data) {
      var r :| r in data && r.investor == investor;
      assert multiset(rows)[r] == multiset(data)[r] > 0;
    }
    if |rows| > 0 {
      assert rows[0] in rows;
    }
  }

  /** The page opens on the investor of the first row, whose first row is also the first row
      shown; without data nothing is selected. */
  lemma InitialSelectionShowsFirstRow(data: seq<AssetRecord>)
    ensures |data| == 0 ==> InitialSelection(data) == None
    ensures |data| > 0 ==>
      && InitialSelection(data) == Some(data[0].investor)
      && |DashboardViews(data, InitialSelection(data)).processed.filteredData| > 0
      && DashboardViews(data, InitialSelection(data)).processed.filteredData[0] == data[0]
  {
    InvestorList(data);
    if |data| > 0 {
      var names := Map(data, InvestorOf);
      DistinctHead(names);
      var p := DataProcessor.BelongsTo(data[0].investor);
      assert data == [data[0]] + data[1..];
      FilterAppend([data[0]], data[1..], p);
      assert Filter([data[0]], p) == [data[0]] by {
        assert [data[0]][..0] == [];
      }
    }
  }

  // -----------------------------------------------------------------------
  // Consistency of the views

  /** With no rows selected every view is empty: an all-zero summary, no tiles, and two-level
      trees with a zero root and no groups. */
  lemma NoRowsNoViews(data: seq<AssetRecord>, selected: Option<string>)
    requires selected.None? || forall r :: r in data ==> r.investor != selected.value
    ensures var v := DashboardViews(data, selected);
      && v.processed == DataProcessor.Processed([], NoSummary)
      && v.currentTreemap == [] && v.contributionTreemap == []
      && v.portfolioAsset == Node("자산분류", 0.0, Some([]), None)
      && v.portfolioSector == Node("섹터", 0.0, Some([]), None)
      && v.performanceAsset == Node("자산분류", 0.0, Some([]), None)
      && v.performanceSector == Node("섹터", 0.0, Some([]), None)
  {
    if selected.Some? {
      DataProcessor.UnknownInvestorGetsZeros(data, selected.value);
    }
  }

  /** The views agree on their totals: the contribution tiles add up to the value of both
      performance trees, the two value trees have the same value, and when no selected row has
      a negative ending value the value tiles, both value trees and the current total agree. */
  lemma ViewTotalsAgree(data: seq<AssetRecord>, selected: Option<string>)
    ensures var v := DashboardViews(data, selected);
      && SumOf(v.contributionTreemap, DataProcessor.EntryValue) == v.performanceAsset.value
      && v.performanceAsset.value == v.performanceSector.value
      && v.portfolioAsset.value == v.portfolioSector.value
    ensures var v := DashboardViews(data, selected);
      (forall r :: r in v.processed.filteredData ==> r.endValue >= 0.0) ==>
        && SumOf(v.currentTreemap, DataProcessor.EntryValue) == v.portfolioAsset.value
        && v.portfolioAsset.value == v.processed.summary.totalCurrent
  {
    var rows := Process(data, selected).filteredData;
    TreemapMatchesTree(rows, DataProcessor.Contribution, Sunburst.ContributionValue);
    if forall r :: r in rows ==> r.endValue >= 0.0 {
      TreemapMatchesTree(rows, DataProcessor.Current, Sunburst.EndingValue);
      SumOfCongruent(rows, Sunburst.MagnitudeOf(Sunburst.EndingValue), DataProcessor.EndValue);
    }
  }

  /** The tiles of a ranked list add up to the magnitude total of the matching tree, provided
      no row's tile would have had a negative size. */
  lemma TreemapMatchesTree(rows: seq<AssetRecord>, t: DataProcessor.TreemapType, metric: Sunburst.Metric)
    requires t == DataProcessor.Contribution <==> metric == Sunburst.ContributionValue
    requires forall r :: r in rows ==> DataProcessor.Magnitude(t, r) >= 0.0
    ensures SumOf(DataProcessor.Treemap(rows, t), DataProcessor.EntryValue) == Sunburst.MagnitudeSum(rows, metric)
  {
    DataProcessor.TreemapTotal(rows, t);
    SumOfFilter(rows, DataProcessor.IsShown(t), DataProcessor.MagnitudeOf(t));
    SumOfDropZeros(rows, DataProcessor.IsShown(t), DataProcessor.MagnitudeOf(t));
    SumOfCongruent(rows, DataProcessor.MagnitudeOf(t), Sunburst.MagnitudeOf(metric));
  }
}
