/**
 * The three record shapes of the dashboard: an input row, an entry of the
 * ranked (treemap) list and a node of the two-level (sunburst) tree.
 * Amounts are reals; the account-name column is declared by the source but
 * never filled in, so it has no field here.
 */
module AssetData {
  import opened Wrappers

  /** One holding of one investor: 투자자, 종목명, 통화, 연초날짜, 연말날짜,
      연초평가, 연말평가, 자산기여도, 섹터, 자산분류, 수익률. */
  datatype AssetRecord = AssetRecord(
    investor: string,
    itemName: string,
    currency: string,
    startDate: string,
    endDate: string,
    startValue: real,
    endValue: real,
    contribution: real,
    sector: string,
    assetClass: string,
    returnRate: real)

  /** An entry of the ranked list; `contribution` keeps its sign even when `value` is its magnitude. */
  datatype TreemapEntry = TreemapEntry(name: string, value: real, contribution: real, fill: string)

  /** A node of the two-level tree. Leaves and the catch-all node have no `children`;
      the root has no `fill`. */
  datatype Node = Node(name: string, value: real, children: Option<seq<Node>>, fill: Option<string>)

  function Abs(x: real): (r: real)
    ensures r >= 0.0 && (r == x || r == -x)
  {
    if x < 0.0 then -x else x
  }

  /** The value of a node, as a function to sum over. */
  function ValueOf(n: Node): real
  {
    n.value
  }

  // Colours used by the data processor.
  const Gain: string := "#10B981"
  const Loss: string := "#EF4444"
  const Neutral: string := "#F59E0B"
  const GroupFill: string := "#2563EB"
  const OtherFill: string := "#6B7280"
}
