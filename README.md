# Asset dashboard aggregation, in Dafny

This project models the aggregation engine of a small React dashboard for
investment holdings. It also proves properties of that engine. The dashboard
reads a flat table of asset rows, lets the user pick an investor, and shows
six views of that investor's rows:

- a summary of beginning, ending and contribution totals and a growth rate;
- two ranked lists, drawn as treemaps: by ending value, and by the size of the
  contribution;
- four two-level trees, drawn as sunbursts: grouped by asset class (자산분류)
  or by sector (섹터), and sized by ending value or by the size of the
  contribution. Small groups are folded into a '기타' (other) node.

The sunburst chart component flattens each tree into an inner ring (one slice
per top-level node) and an outer ring (one slice per leaf, or one for a
top-level node that has no leaves, such as '기타'). It colours both rings from
a fixed palette.

Modules, one file each:

- `Wrappers` (wrappers.dfy): `Option`.
- `Seqs` (seqs.dfy): `filter`, `map`, summing `reduce` and `[...new Set(xs)]`
  as functions on sequences, with their lemmas.
- `AssetData` (asset_data.dfy): the row, ranked-entry and tree-node shapes of
  src/types/AssetData.ts, and the colours the data processor uses.
- `DataProcessor` (data_processor.dfy): `processAssetData` and
  `createTreemapData`. The descending sort is a stable insertion sort on an
  array, proved equal to a functional insertion sort.
- `Sunburst` (sunburst.dfy): one generic builder, `BuildSunburst`,
  parameterised by the grouping column and the metric.
  - It groups rows into a map in one pass, as the source's `reduce` does.
  - It then builds the kept groups and appends '기타'.
  - `createSunburstData` and `createPerformanceSunburstData` are its two
    instances.
  - It is proved equal to the specification function `Sunburst`, and the tree
    properties are proved about that function.
- `SunburstChart` (sunburst_chart.dfy): `getCategoryColor`, `outerPieData`,
  `innerPieData` and the choice of cell colours.
- `Dashboard` (dashboard.dfy): the investor list, the initial selection and
  the six views built from one filtered row set.
- `Scenarios` (scenarios.dfy): worked examples on concrete rows.

Amounts are `real`. Where the source divides by a total that can be zero, the
model states the outcome of the IEEE comparison outright. `0/0` is NaN and
`x/0` is Infinity, and neither is below 5, so with a zero total no group is
folded into '기타'. One might expect a zero total to fold every group into
'기타'; the code keeps every group, with value 0 and no leaves
(`Sunburst.ZeroTotalKeepsEveryGroup`).

## Model

| member | source | states |
|---|---|---|
| DataProcessor.GrowthRate | src/utils/dataProcessor.ts:9 | when the beginning total is positive, rate × beginning = (ending − beginning) × 100; otherwise, including a negative beginning total, the rate is exactly 0 |
| DataProcessor.GrowthRateExamples | src/utils/dataProcessor.ts:9 | 1,000,000 growing to 1,250,000 is 25%; a zero beginning total gives 0 whatever the ending total |
| DataProcessor.ProcessAssetData | src/utils/dataProcessor.ts:3-20 | the filtered rows are rows of the input, all of the selected investor, and no more numerous than the input |
| DataProcessor.FilteredDataIsInvestorRows | src/utils/dataProcessor.ts:4 | the filtered rows are a subsequence of the input (original order) and contain every copy of each of the investor's rows and no other row |
| DataProcessor.SummaryTotals | src/utils/dataProcessor.ts:6-8 | the three totals are the sums of beginning value, ending value and contribution over exactly the investor's rows |
| DataProcessor.UnknownInvestorGetsZeros | src/utils/dataProcessor.ts:3-20 | an investor with no rows gets no rows and an all-zero summary, growth rate included |
| DataProcessor.CreateTreemapData | src/utils/dataProcessor.ts:22-32 | the filter/map/sort pipeline, with the sort done in place on an array, yields the ranked list `Treemap` |
| DataProcessor.EntryOfShownRow | src/utils/dataProcessor.ts:24-29 | every entry built has a strictly positive value and the three-way sign colour of its contribution |
| DataProcessor.ShownRowHasEntry | src/utils/dataProcessor.ts:24-28 | every row with a positive magnitude produces its entry |
| DataProcessor.TreemapShowsExactlyPositiveRows | src/utils/dataProcessor.ts:24-28 | the list has one entry per row of positive magnitude, no more than there are rows, and is a permutation of those rows' entries (name, magnitude, signed contribution); every value is positive; every such row is present |
| DataProcessor.TreemapFillBySign | src/utils/dataProcessor.ts:29 | the fill is #10B981 iff the contribution is positive, #EF4444 iff negative, #F59E0B iff zero |
| DataProcessor.TreemapOrder | src/utils/dataProcessor.ts:31 | values are non-increasing, and the entries of each value keep their input order (stable sort) |
| DataProcessor.TreemapTotal | src/utils/dataProcessor.ts:22-32 | the tile values add up to the magnitude total over the shown rows |
| DataProcessor.SortedMembers | src/utils/dataProcessor.ts:31 | sorting neither adds nor drops an entry |
| DataProcessor.InsertPermutes | src/utils/dataProcessor.ts:31 | one insertion step adds exactly the inserted entry to the multiset |
| DataProcessor.InsertSum | src/utils/dataProcessor.ts:31 | one insertion step adds the inserted entry's value to the total |
| DataProcessor.SortSum | src/utils/dataProcessor.ts:31 | sorting keeps the sum of values |
| DataProcessor.InsertDescending | src/utils/dataProcessor.ts:31 | inserting into a non-increasing list keeps it non-increasing |
| DataProcessor.InsertStable | src/utils/dataProcessor.ts:31 | an insertion puts the new entry after every earlier entry of the same value |
| DataProcessor.SortPermutes | src/utils/dataProcessor.ts:31 | the sorted list is a permutation of the input |
| DataProcessor.SortDescending | src/utils/dataProcessor.ts:31 | the sorted list is non-increasing by value |
| DataProcessor.SortStable | src/utils/dataProcessor.ts:31 | for every value, the entries of that value appear in input order |
| DataProcessor.InsertAt | src/utils/dataProcessor.ts:31 | inserting before the first strictly smaller entry is a split at that position |
| DataProcessor.SortByValueDescending | src/utils/dataProcessor.ts:31 | the array afterwards holds the stable descending sort of its old contents |
| DataProcessor.InsertLast | src/utils/dataProcessor.ts:31 | one pass of the in-place sort: the prefix up to i becomes the insertion of `a[i]` into the sorted prefix, and the rest of the array is untouched |
| Sunburst.BuildSunburst | src/utils/dataProcessor.ts:34-89 | grouping in a map, building the kept groups and pushing '기타' yields the tree `Sunburst` |
| Sunburst.GroupRows | src/utils/dataProcessor.ts:38-43 | the keys of the map built in place are the labels in first-seen order, and each key holds exactly its rows in input order |
| Sunburst.GroupRowsStep | src/utils/dataProcessor.ts:38-43 | pushing one row (creating the group's array on the label's first row) keeps the map equal to the grouping of the rows seen so far |
| Sunburst.KeptGroupNodes | src/utils/dataProcessor.ts:47-70 | the map-then-filter over the groups gives the kept group nodes in first-seen order |
| Sunburst.GroupingStep | src/utils/dataProcessor.ts:38-43 | one more row adds its label to the end when the label is new, and appends the row to its label's group only |
| Sunburst.UnseenCategoryIsEmpty | src/utils/dataProcessor.ts:38-43 | a label not yet seen has no rows |
| Sunburst.CreateSunburstData | src/utils/dataProcessor.ts:34-89 | the value tree: the generic builder on ending value, for both chart types, grouped by 자산분류 or 섹터, with the root named after the grouping column |
| Sunburst.CreatePerformanceSunburstData | src/utils/dataProcessor.ts:91-145 | the performance tree: the generic builder on the size of the contribution, grouped by 자산분류 or 섹터, with the root named after the grouping column |
| Sunburst.SunburstShape | src/utils/dataProcessor.ts:45-88 | the root is named 자산분류/섹터, has no fill, and is worth the non-negative sum of the rows' magnitudes; its children are the kept groups, then '기타' holding the dropped groups' total exactly when that total is positive |
| Sunburst.ChildrenSumToRoot | src/utils/dataProcessor.ts:73-88 | the top-level children add up exactly to the root's value |
| Sunburst.TotalIsSumOfCategories | src/utils/dataProcessor.ts:38-49 | the total over all rows is the sum of the group totals |
| Sunburst.KeptPlusDropped | src/utils/dataProcessor.ts:47-74 | the group totals split into the kept groups' values plus a non-negative dropped remainder |
| Sunburst.MagnitudeSumNonNegative | src/utils/dataProcessor.ts:45 | a sum of absolute values is not negative |
| Sunburst.SumCategoriesStep | src/utils/dataProcessor.ts:38-49 | one more row adds its magnitude to the sum of the group totals once, when its label is listed |
| Sunburst.DemotionRule | src/utils/dataProcessor.ts:50-53 | a group is dropped iff the total is positive and the group's share is below 5% (value × 20 < total) |
| Sunburst.KeptGroupsInOrder | src/utils/dataProcessor.ts:47-70 | the kept nodes are named after the kept labels in first-seen order, and each is its group's node built from its own rows |
| Sunburst.KeptGroupNames | src/utils/dataProcessor.ts:47-70 | the names of the kept nodes are the labels that are not dropped, in order |
| Sunburst.KeptGroupShapes | src/utils/dataProcessor.ts:47-70 | each kept node belongs to a listed, kept label and is that group's node |
| Sunburst.GroupNodeLeaves | src/utils/dataProcessor.ts:55-68 | a kept group is named by its label, filled #2563EB, and worth the sum of its leaves; the leaves are its rows of nonzero magnitude in input order, named by item, sized by magnitude (positive), childless, and #10B981 when the contribution is ≥ 0, #EF4444 otherwise |
| Sunburst.LeafShapes | src/utils/dataProcessor.ts:55-61 | one leaf per shown row, with its name, positive magnitude, no children and the two-way colour |
| Sunburst.LeavesSum | src/utils/dataProcessor.ts:49-61 | the leaves add up to the group's total |
| Sunburst.ShownMembers | src/utils/dataProcessor.ts:56 | the shown rows are a subsequence of the group containing every row of nonzero magnitude |
| Sunburst.ZeroSumHasZeroTerms | src/utils/dataProcessor.ts:45 | a zero total means every row has zero magnitude |
| Sunburst.ZeroTotalGroups | src/utils/dataProcessor.ts:47-70 | with a zero total, every listed group is kept with value 0 and no leaves |
| Sunburst.ZeroTotalKeepsEveryGroup | src/utils/dataProcessor.ts:50-53 | with a zero total, nothing is dropped, no '기타' is added, and every group appears with value 0 and no leaves |
| SunburstChart.CellColors | src/components/SunburstChart.tsx:14-24 | palettes have 4 shades and repeat every 6 categories; an outer cell takes shade itemIndex mod 4 of palette categoryIndex mod 6 and never the fallback; an inner cell takes shade 0, the colour of its category's first outer cell |
| SunburstChart.InnerSlicesSpec | src/components/SunburstChart.tsx:46-50 | one inner slice per top-level child, in order, carrying the child, its position and the root value |
| SunburstChart.InnerPieDataSpec | src/components/SunburstChart.tsx:46-50 | the same for a root; a root without children gives no slices |
| SunburstChart.ItemSlicesSpec | src/components/SunburstChart.tsx:29-35 | one slice per child, carrying the child, the category's name and index, the root value and the child's position |
| SunburstChart.OuterSlicesSpec | src/components/SunburstChart.tsx:27-43 | the slices come category by category and within a category by position, their number is the count over categories, and each is a child of its category (or the childless category itself at position 0) tagged with the category's name and the root value |
| SunburstChart.RingOrderAppend | src/components/SunburstChart.tsx:27-43 | appending a category's slices after earlier categories' slices keeps the ring order |
| SunburstChart.OuterPieDataSpec | src/components/SunburstChart.tsx:27-43 | the same for a root; a root without children gives no slices |
| SunburstChart.ItemSlicesSum | src/components/SunburstChart.tsx:29-35 | a category's item slices add up to its children's values |
| SunburstChart.CategorySlicesSum | src/components/SunburstChart.tsx:28-42 | a category whose children add up to it contributes its own value to the outer ring |
| SunburstChart.InnerRingSum | src/components/SunburstChart.tsx:46-50 | the inner ring adds up to the sum of the top-level values |
| SunburstChart.OuterRingSum | src/components/SunburstChart.tsx:27-43 | when every category's children add up to it, the outer ring adds up to the sum of the top-level values |
| SunburstChart.RingTotals | src/components/SunburstChart.tsx:27-50 | for a tree from either builder, both rings add up to the root value |
| Dashboard.ComposeViews | src/components/Dashboard.tsx:20-27 | the six views are the builders applied to the one filtered row set of the selection |
| Dashboard.InvestorList | src/components/Dashboard.tsx:17 | the investor list has no duplicates, lists exactly the investors that have a row, in order of first appearance, and is empty only without data |
| Dashboard.OfferedInvestorsHaveRows | src/components/Dashboard.tsx:17-20 | an investor is offered iff selecting them gives a non-empty filtered set |
| Dashboard.InitialSelectionShowsFirstRow | src/components/Dashboard.tsx:17-20 | without data nothing is selected; otherwise the first row's investor is selected and the first row shown is the first row of the data |
| Dashboard.NoRowsNoViews | src/components/Dashboard.tsx:20-27 | with no matching rows every view is empty: zero summary, no tiles, and trees with a zero root and no groups |
| Dashboard.ViewTotalsAgree | src/components/Dashboard.tsx:20-27 | the contribution tiles sum to the value of both performance trees; both value trees have the same value; with no negative ending value, the value tiles, both value trees and the ending total agree |
| Dashboard.TreemapMatchesTree | src/components/Dashboard.tsx:22-27 | the tiles of a ranked list add up to the matching tree's total when no tile would have had a negative size |
| Scenarios.RankingExample | src/utils/dataProcessor.ts:22-32 | ending values 300, 100, 500 are ranked 500, 300, 100 |
| Scenarios.DemotionExample | src/utils/dataProcessor.ts:45-88 | groups worth 60, 30, 4 and 6 out of 100: the 4 is folded into '기타' (#6B7280, no children), the others are kept in order |
| Scenarios.ScenarioSummary | src/utils/dataProcessor.ts:3-20 | investor A's three rows give ending total 350000 and contribution total 80000 |
| Scenarios.ScenarioValueTree | src/utils/dataProcessor.ts:34-89 | by asset class on ending value, 'stock' (300000) and 'cash' (50000) are both kept and no '기타' is added |
| Scenarios.ScenarioContributionTree | src/utils/dataProcessor.ts:91-145 | on the size of the contribution, 'cash' has no leaves, its share is zero and it is dropped; nothing is left over for '기타' |
| Scenarios.ScenarioContributionRanking | src/utils/dataProcessor.ts:22-32 | the contribution ranking drops the zero-contribution row and colours the gain and the loss |

## Left out

- Loading the spreadsheet (src/components/FileUpload.tsx) is I/O through a foreign library (FileReader, XLSX, `parseFloat(...) \|\| 0`, `alert`). Rows arrive as a parameter.
- `formatCurrency` and `formatPercentage` wrap `Intl.NumberFormat` and float formatting. They are not modelled.
- Tooltips and ring labels (src/components/SunburstChart.tsx:53-141) are trigonometric layout and display text. They are not modelled.
- The `useState` selection and the screen's `onChange` handler are React state. The selected investor is a parameter, an `Option` that is `None` when `investors[0]` is undefined.
- The treemap and table components, App.tsx and the build configuration are rendering only.
- IEEE-754 floating point: amounts are exact reals. Rounding, overflow and NaN-valued inputs are not modelled. The only NaN behaviour kept is the comparison of a zero total's share against 5%.
- `Object.entries` lists keys that look like array indices ("1", "2") first, in numeric order. The model keeps first-seen order. It assumes no label is an array index or an inherited object-prototype name such as "constructor".
- The account-name column (계좌명) is declared but never filled in, so it has no field.
- `Array.prototype.sort` is only required to be stable. The model sorts with one stable algorithm, an insertion sort. Any stable sort with the same comparator gives the same output, so the result is the same.
- `Sunburst.IsDemoted` compares the share with 5 as an exact real. Floating-point rounding at a share of exactly 5% is not modelled.
