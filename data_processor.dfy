/**
 * The per-investor summary and the ranked (treemap) list of
 * src/utils/dataProcessor.ts: `processAssetData` and `createTreemapData`.
 */
module DataProcessor {
  import opened Seqs
  import opened AssetData

  datatype Summary = Summary(totalInitial: real, totalCurrent: real, totalReturn: real, growthRate: real)

  datatype Processed = Processed(filteredData: seq<AssetRecord>, summary: Summary)

  /** `item => item.투자자 === selectedInvestor` */
  function BelongsTo(investor: string): AssetRecord -> bool
  {
    (r: AssetRecord) => r.investor == investor
  }

  function StartValue(r: AssetRecord): real { r.startValue }

  function EndValue(r: AssetRecord): real { r.endValue }

  function ContributionOf(r: AssetRecord): real { r.contribution }

  // -----------------------------------------------------------------------
  // processAssetData

  /** Growth in percent, guarded: only a strictly positive starting total is divided by. */
  function GrowthRate(totalInitial: real, totalCurrent: real): (g: real)
    ensures totalInitial > 0.0 ==> g * totalInitial == (totalCurrent - totalInitial) * 100.0
    ensures totalInitial <= 0.0 ==> g == 0.0
  {
    if totalInitial > 0.0 then ((totalCurrent - totalInitial) / totalInitial) * 100.0 else 0.0
  }

  /** The selected investor's rows and their totals. */
  function ProcessAssetData(data: seq<AssetRecord>, selectedInvestor: string): (r: Processed)
    ensures |r.filteredData| <= |data|
    ensures forall x :: x in r.filteredData ==> x in data && x.investor == selectedInvestor
  {
    var filteredData := Filter(data, BelongsTo(selectedInvestor));
    var totalInitial := SumOf(filteredData, StartValue);
    var totalCurrent := SumOf(filteredData, EndValue);
    var totalReturn := SumOf(filteredData, ContributionOf);
    Processed(filteredData, Summary(totalInitial, totalCurrent, totalReturn, GrowthRate(totalInitial, totalCurrent)))
  }

  /** The filtered rows are exactly the investor's rows, every copy of each, in their original order. */
  lemma FilteredDataIsInvestorRows(data: seq<AssetRecord>, investor: string)
    ensures IsSubsequence(ProcessAssetData(data, investor).filteredData, data)
    ensures forall x :: multiset(ProcessAssetData(data, investor).filteredData)[x] == (if x.investor == investor then multiset(data)[x] else 0)
  {
    FilterIsSubsequence(data, BelongsTo(investor));
    FilterMultiset(data, BelongsTo(investor));
  }

  /** The three totals are the sums of the three columns over the investor's rows of the whole data. */
  lemma SummaryTotals(data: seq<AssetRecord>, investor: string)
    ensures ProcessAssetData(data, investor).summary.totalInitial == SumWhere(data, BelongsTo(investor), StartValue)
    ensures ProcessAssetData(data, investor).summary.totalCurrent == SumWhere(data, BelongsTo(investor), EndValue)
    ensures ProcessAssetData(data, investor).summary.totalReturn == SumWhere(data, BelongsTo(investor), ContributionOf)
  {
    SumOfFilter(data, BelongsTo(investor), StartValue);
    SumOfFilter(data, BelongsTo(investor), EndValue);
    SumOfFilter(data, BelongsTo(investor), ContributionOf);
  }

  /** An investor with no rows gets no rows and an all-zero summary. */
  lemma UnknownInvestorGetsZeros(data: seq<AssetRecord>, investor: string)
    requires forall r :: r in data ==> r.investor != investor
    ensures ProcessAssetData(data, investor) == Processed([], Summary(0.0, 0.0, 0.0, 0.0))
  {
    FilterNone(data, BelongsTo(investor));
  }

  /** 1,000,000 growing to 1,250,000 is 25 percent; nothing grows from a zero start. */
  lemma GrowthRateExamples(totalCurrent: real)
    ensures GrowthRate(1000000.0, 1250000.0) == 25.0
    ensures GrowthRate(0.0, totalCurrent) == 0.0
  {
  }

  // -----------------------------------------------------------------------
  // createTreemapData

  /** `'current' | 'contribution'` */
  datatype TreemapType = Current | Contribution

  /** The size of a row's tile: its ending value, or the magnitude of its contribution. */
  function Magnitude(t: TreemapType, r: AssetRecord): real
  {
    if t == Current then r.endValue else Abs(r.contribution)
  }

  function IsShown(t: TreemapType): AssetRecord -> bool
  {
    (r: AssetRecord) => Magnitude(t, r) > 0.0
  }

  /** The three-way colour of a signed contribution. */
  function SignFill(contribution: real): string
  {
    if contribution > 0.0 then Gain else if contribution < 0.0 then Loss else Neutral
  }

  function ToEntry(t: TreemapType): AssetRecord -> TreemapEntry
  {
    (r: AssetRecord) => TreemapEntry(r.itemName, Magnitude(t, r), r.contribution, SignFill(r.contribution))
  }

  /** The `filter` and `map` steps, before sorting. */
  function TreemapEntries(data: seq<AssetRecord>, t: TreemapType): seq<TreemapEntry>
  {
    Map(Filter(data, IsShown(t)), ToEntry(t))
  }

  /** The ranked list: the entries stably sorted by value, largest first. */
  function Treemap(data: seq<AssetRecord>, t: TreemapType): seq<TreemapEntry>
  {
    SortedByValue(TreemapEntries(data, t))
  }

  method CreateTreemapData(data: seq<AssetRecord>, t: TreemapType) returns (r: seq<TreemapEntry>)
    ensures r == Treemap(data, t)
  {
    var entries := TreemapEntries(data, t);
    var a := new TreemapEntry[|entries|](k requires 0 <= k < |entries| => entries[k]);
    assert a[..] == entries;
    SortByValueDescending(a);
    r := a[..];
  }

  lemma SortedMembers(s: seq<TreemapEntry>)
    ensures forall e :: e in SortedByValue(s) <==> e in s
  {
    SortPermutes(s);
    forall e ensures e in SortedByValue(s) <==> e in s {
      assert e in SortedByValue(s) <==> e in multiset(SortedByValue(s));
      assert e in s <==> e in multiset(s);
    }
  }

  lemma EntryOfShownRow(data: seq<AssetRecord>, t: TreemapType, e: TreemapEntry)
    requires e in TreemapEntries(data, t)
    ensures e.value > 0.0 && e.fill == SignFill(e.contribution)
  {
    var kept := Filter(data, IsShown(t));
    var k :| 0 <= k < |kept| && TreemapEntries(data, t)[k] == e;
    assert kept[k] in kept;
  }

  lemma ShownRowHasEntry(data: seq<AssetRecord>, t: TreemapType, r: AssetRecord)
    requires r in data && Magnitude(t, r) > 0.0
    ensures ToEntry(t)(r) in TreemapEntries(data, t)
  {
    var kept := Filter(data, IsShown(t));
    FilterMultiset(data, IsShown(t));
    assert multiset(data)[r] > 0;
    assert multiset(kept)[r] > 0;
    var k :| 0 <= k < |kept| && kept[k] == r;
    assert TreemapEntries(data, t)[k] == ToEntry(t)(r);
  }

  /** Every row with a positive magnitude gives one entry, with that magnitude, its name and
      its signed contribution, and no other entry exists. */
  lemma TreemapShowsExactlyPositiveRows(data: seq<AssetRecord>, t: TreemapType)
    ensures |Treemap(data, t)| == |Filter(data, IsShown(t))| <= |data|
    ensures multiset(Treemap(data, t)) == multiset(Map(Filter(data, IsShown(t)), ToEntry(t)))
    ensures forall e :: e in Treemap(data, t) ==> e.value > 0.0
    ensures forall r :: r in data && Magnitude(t, r) > 0.0 ==>
      TreemapEntry(r.itemName, Magnitude(t, r), r.contribution, SignFill(r.contribution)) in Treemap(data, t)
  {
    var entries := TreemapEntries(data, t);
    SortPermutes(entries);
    SortedMembers(entries);
    assert |Treemap(data, t)| == |entries| by {
      assert |multiset(Treemap(data, t))| == |multiset(entries)|;
    }
    forall e | e in Treemap(data, t) ensures e.value > 0.0 {
      EntryOfShownRow(data, t, e);
    }
    forall r | r in data && Magnitude(t, r) > 0.0
      ensures ToEntry(t)(r) in Treemap(data, t)
    {
      ShownRowHasEntry(data, t, r);
    }
  }

  /** An entry's colour is green, red or amber exactly as its contribution is positive, negative or zero. */
  lemma TreemapFillBySign(data: seq<AssetRecord>, t: TreemapType)
    ensures forall e :: e in Treemap(data, t) ==>
      && (e.fill == Gain <==> e.contribution > 0.0)
      && (e.fill == Loss <==> e.contribution < 0.0)
      && (e.fill == Neutral <==> e.contribution == 0.0)
  {
    SortedMembers(TreemapEntries(data, t));
    forall e | e in Treemap(data, t) ensures e.fill == SignFill(e.contribution) {
      EntryOfShownRow(data, t, e);
    }
  }

  /** The ranked list is largest first, and entries of equal value keep their input order. */
  lemma TreemapOrder(data: seq<AssetRecord>, t: TreemapType)
    ensures ValueDescending(Treemap(data, t))
    ensures forall v :: WithValue(Treemap(data, t), v) == WithValue(TreemapEntries(data, t), v)
  {
    SortDescending(TreemapEntries(data, t));
    SortStable(TreemapEntries(data, t));
  }

  function EntryValue(e: TreemapEntry): real { e.value }

  function MagnitudeOf(t: TreemapType): AssetRecord -> real
  {
    (r: AssetRecord) => Magnitude(t, r)
  }

  /** The tiles add up to the magnitudes of the rows that are shown: sorting moves area around
      but neither adds nor loses any. */
  lemma TreemapTotal(data: seq<AssetRecord>, t: TreemapType)
    ensures SumOf(Treemap(data, t), EntryValue) == SumWhere(data, IsShown(t), MagnitudeOf(t))
  {
    SortSum(TreemapEntries(data, t));
    SumOfMap(Filter(data, IsShown(t)), ToEntry(t), EntryValue, MagnitudeOf(t));
    SumOfFilter(data, IsShown(t), MagnitudeOf(t));
  }

  // -----------------------------------------------------------------------
  // `.sort((a, b) => b.value - a.value)`: a stable sort, largest value first

  ghost predicate ValueDescending(s: seq<TreemapEntry>)
  {
    forall i, j :: 0 <= i < j < |s| ==> s[i].value >= s[j].value
  }

  function HasValue(v: real): TreemapEntry -> bool
  {
    (e: TreemapEntry) => e.value == v
  }

  /** The entries of value `v`, in their order. */
  function WithValue(s: seq<TreemapEntry>, v: real): seq<TreemapEntry>
  {
    Filter(s, HasValue(v))
  }

  /** Inserts `e` into `s` after every entry whose value is at least that of `e`. */
  function Insert(e: TreemapEntry, s: seq<TreemapEntry>): seq<TreemapEntry>
  {
    if s == [] || s[|s| - 1].value >= e.value then s + [e]
    else Insert(e, s[..|s| - 1]) + [s[|s| - 1]]
  }

  /** Insertion sort by value, largest first. */
  function SortedByValue(s: seq<TreemapEntry>): seq<TreemapEntry>
  {
    if s == [] then [] else Insert(s[|s| - 1], SortedByValue(s[..|s| - 1]))
  }

  lemma {:induction false} InsertPermutes(e: TreemapEntry, s: seq<TreemapEntry>)
    ensures multiset(Insert(e, s)) == multiset(s) + multiset{e}
  {
    if s != [] && s[|s| - 1].value < e.value {
      var s' := s[..|s| - 1];
      InsertPermutes(e, s');
      assert s == s' + [s[|s| - 1]];
    }
  }

  lemma {:induction false} InsertSum(e: TreemapEntry, s: seq<TreemapEntry>)
    ensures SumOf(Insert(e, s), EntryValue) == SumOf(s, EntryValue) + e.value
  {
    if s != [] && s[|s| - 1].value < e.value {
      var s' := s[..|s| - 1];
      InsertSum(e, s');
      SumOfAppend(Insert(e, s'), [s[|s| - 1]], EntryValue);
      SumOfAppend(s', [s[|s| - 1]], EntryValue);
      assert s == s' + [s[|s| - 1]];
    } else {
      SumOfAppend(s, [e], EntryValue);
    }
  }

  lemma {:induction false} SortSum(s: seq<TreemapEntry>)
    ensures SumOf(SortedByValue(s), EntryValue) == SumOf(s, EntryValue)
  {
    if s != [] {
      SortSum(s[..|s| - 1]);
      InsertSum(s[|s| - 1], SortedByValue(s[..|s| - 1]));
    }
  }

  lemma {:induction false} InsertDescending(e: TreemapEntry, s: seq<TreemapEntry>)
    requires ValueDescending(s)
    ensures ValueDescending(Insert(e, s))
  {
    if s != [] && s[|s| - 1].value < e.value {
      var s', last := s[..|s| - 1], s[|s| - 1];
      InsertDescending(e, s');
      InsertPermutes(e, s');
      var r := Insert(e, s');
      forall i | 0 <= i < |r| ensures r[i].value >= last.value {
        assert r[i] in multiset(s') + multiset{e};
        if r[i] != e {
          assert r[i] in s';
          var k :| 0 <= k < |s'| && s'[k] == r[i];
        }
      }
    }
  }

  /** Inserting `e` adds it after every entry of its own value. */
  lemma {:induction false} InsertStable(e: TreemapEntry, s: seq<TreemapEntry>, v: real)
    ensures WithValue(Insert(e, s), v) == WithValue(s, v) + (if e.value == v then [e] else [])
  {
    if s == [] || s[|s| - 1].value >= e.value {
      WithValueSnoc(s, e, v);
    } else {
      var s', last := s[..|s| - 1], s[|s| - 1];
      InsertStable(e, s', v);
      WithValueSnoc(Insert(e, s'), last, v);
      WithValueSnoc(s', last, v);
      assert s == s' + [last];
    }
  }

  lemma WithValueSnoc(s: seq<TreemapEntry>, x: TreemapEntry, v: real)
    ensures WithValue(s + [x], v) == WithValue(s, v) + (if x.value == v then [x] else [])
  {
    assert (s + [x])[..|s|] == s;
  }

  /** The sort rearranges its input and nothing more. */
  lemma {:induction false} SortPermutes(s: seq<TreemapEntry>)
    ensures multiset(SortedByValue(s)) == multiset(s)
  {
    if s != [] {
      var s' := s[..|s| - 1];
      SortPermutes(s');
      InsertPermutes(s[|s| - 1], SortedByValue(s'));
      assert s == s' + [s[|s| - 1]];
    }
  }

  /** The sort puts larger values first. */
  lemma {:induction false} SortDescending(s: seq<TreemapEntry>)
    ensures ValueDescending(SortedByValue(s))
  {
    if s != [] {
      SortDescending(s[..|s| - 1]);
      InsertDescending(s[|s| - 1], SortedByValue(s[..|s| - 1]));
    }
  }

  /** The sort is stable: the entries of any one value keep their input order. */
  lemma {:induction false} SortStable(s: seq<TreemapEntry>)
    ensures forall v :: WithValue(SortedByValue(s), v) == WithValue(s, v)
  {
    if s != [] {
      var s', last := s[..|s| - 1], s[|s| - 1];
      SortStable(s');
      forall v ensures WithValue(SortedByValue(s), v) == WithValue(s, v) {
        InsertStable(last, SortedByValue(s'), v);
        FilterAppend(s', [last], HasValue(v));
        assert Filter([last], HasValue(v)) == Filter([], HasValue(v)) + (if last.value == v then [last] else []);
        assert s == s' + [last];
      }
    }
  }

  /** Inserting before a run of smaller values, right after a value at least as large. */
  lemma {:induction false} InsertAt(x: TreemapEntry, s: seq<TreemapEntry>, j: nat)
    requires j <= |s|
    requires j == 0 || s[j - 1].value >= x.value
    requires forall k :: j <= k < |s| ==> s[k].value < x.value
    ensures Insert(x, s) == s[..j] + [x] + s[j..]
    decreases |s|
  {
    if j < |s| {
      var s' := s[..|s| - 1];
      InsertAt(x, s', j);
      assert s'[..j] == s[..j];
      assert s'[j..] + [s[|s| - 1]] == s[j..];
    }
  }

  /** Stable in-place insertion sort of the freshly built entry array. */
  method SortByValueDescending(a: array<TreemapEntry>)
    modifies a
    ensures a[..] == SortedByValue(old(a[..]))
  {
    ghost var input := a[..];
    var i := 0;
    while i < a.Length
      invariant 0 <= i <= a.Length
      invariant a[..i] == SortedByValue(input[..i])
      invariant a[i..] == input[i..]
    {
      ghost var before := a[..];
      assert input[..i + 1] == input[..i] + [input[i]];
      assert before[i] == input[i] && before[..i] == SortedByValue(input[..i]);
      InsertLast(a, i);
      assert a[..i + 1] == SortedByValue(input[..i + 1]);
      assert a[i + 1..] == before[i + 1..] == input[i + 1..];
      i := i + 1;
    }
    assert input[..a.Length] == input;
  }

  /** Moves `a[i]` left past the entries of smaller value before it, shifting them right. */
  method InsertLast(a: array<TreemapEntry>, i: nat)
    requires i < a.Length
    modifies a
    ensures a[..i + 1] == Insert(old(a[i]), old(a[..i]))
    ensures a[i + 1..] == old(a[i + 1..])
  {
    ghost var sorted := a[..i];
    var x := a[i];
    var j := i;
    while j > 0 && a[j - 1].value < x.value
      invariant 0 <= j <= i
      invariant forall k :: 0 <= k < j ==> a[k] == sorted[k]
      invariant forall k :: j < k <= i ==> a[k] == sorted[k - 1]
      invariant forall k :: j <= k < i ==> sorted[k].value < x.value
      invariant a[i + 1..] == old(a[i + 1..])
    {
      a[j] := a[j - 1];
      j := j - 1;
    }
    a[j] := x;
    InsertAt(x, sorted, j);
    ghost var inserted := sorted[..j] + [x] + sorted[j..];
    forall k | 0 <= k <= i ensures a[k] == inserted[k] {
      if k < j { assert inserted[k] == sorted[k]; }
      else if j < k { assert inserted[k] == sorted[k - 1]; }
    }
    assert a[..i + 1] == inserted;
  }
}
