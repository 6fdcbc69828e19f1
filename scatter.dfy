/** The rows behind the payload scatter chart (`update_scatter`): the launches
    whose payload lies in the slider's range, restricted to the selected site
    unless the dropdown says "ALL". */
module Scatter {
  import opened Masks
  import opened Launches

  /** The slider value `[input_slider[0], input_slider[1]]`. Nothing requires
      `low <= high`. */
  datatype PayloadRange = PayloadRange(low: real, high: real)

  /** The payload lies in the range, both ends included. */
  predicate InRange(x: Record, range: PayloadRange)
  {
    range.low <= x.payload <= range.high
  }

  /** The row is plotted for this dropdown value and slider range. */
  predicate Shown(x: Record, dropdown: string, range: PayloadRange)
  {
    InRange(x, range) && (dropdown == AllSites || x.site == dropdown)
  }

  /** The single mask equivalent to the callback's chain of masks. */
  function ShownMask(dropdown: string, range: PayloadRange): Record -> bool
  {
    (x: Record) => Shown(x, dropdown, range)
  }

  /** `update_scatter`: first the rows with payload at most the upper bound,
      then those with payload at least the lower bound, then, unless the
      dropdown is "ALL", those of the selected site. The result is what is
      plotted; when it is empty the chart is empty, not an error. */
  function UpdateScatter(data: seq<Record>, dropdown: string, range: PayloadRange): (rows: seq<Record>)
    ensures forall x :: x in rows ==> InRange(x, range)
    ensures dropdown != AllSites ==> forall x :: x in rows ==> x.site == dropdown
    ensures forall x :: x in data && Shown(x, dropdown, range) ==> x in rows
    ensures forall x :: x in rows ==> x in data
  {
    var dfNew := Select(data, PayloadAtMost(range.high));
    var df := Select(dfNew, PayloadAtLeast(range.low));
    if dropdown == AllSites then df else Select(df, AtSite(dropdown))
  }

  /** The chain of masks selects exactly the rows the single mask `Shown`
      selects, in dataset order. */
  lemma {:induction false} ScatterIsSelection(data: seq<Record>, dropdown: string, range: PayloadRange)
    ensures UpdateScatter(data, dropdown, range) == Select(data, ShownMask(dropdown, range))
  {
    var inRange := (x: Record) => InRange(x, range);
    SelectSelect(data, PayloadAtMost(range.high), PayloadAtLeast(range.low), inRange);
    if dropdown == AllSites {
      SelectCongruent(data, inRange, ShownMask(dropdown, range));
    } else {
      SelectSelect(data, inRange, AtSite(dropdown), ShownMask(dropdown, range));
    }
  }

  /** The scatter rows are an order-preserving subsequence of the dataset:
      no row is added, repeated or moved. */
  lemma ScatterIsSubsequence(data: seq<Record>, dropdown: string, range: PayloadRange)
    ensures IsSubsequence(UpdateScatter(data, dropdown, range), data)
  {
    ScatterIsSelection(data, dropdown, range);
    SelectIsSubsequence(data, ShownMask(dropdown, range));
  }

  /** No row appears in the scatter rows more often than in the dataset. */
  lemma ScatterNoDuplicates(data: seq<Record>, dropdown: string, range: PayloadRange)
    ensures multiset(UpdateScatter(data, dropdown, range)) <= multiset(data)
  {
    ScatterIsSelection(data, dropdown, range);
    SelectMultiset(data, ShownMask(dropdown, range));
  }

  /** Each row shown appears in the scatter rows exactly as often as in the
      dataset, and a row not shown does not appear: identical launches are all
      plotted. */
  lemma ScatterCounts(data: seq<Record>, dropdown: string, range: PayloadRange, x: Record)
    ensures multiset(UpdateScatter(data, dropdown, range))[x]
         == if Shown(x, dropdown, range) then multiset(data)[x] else 0
  {
    ScatterIsSelection(data, dropdown, range);
    SelectCounts(data, ShownMask(dropdown, range), x);
  }

  /** Filtering the scatter rows again with the same dropdown value and range
      gives them back unchanged. */
  lemma ScatterIdempotent(data: seq<Record>, dropdown: string, range: PayloadRange)
    ensures UpdateScatter(UpdateScatter(data, dropdown, range), dropdown, range)
         == UpdateScatter(data, dropdown, range)
  {
    var rows := UpdateScatter(data, dropdown, range);
    ScatterIsSelection(data, dropdown, range);
    ScatterIsSelection(rows, dropdown, range);
    SelectIdempotent(data, ShownMask(dropdown, range));
  }

  /** With "ALL" selected, the scatter rows are exactly the rows in range. */
  lemma ScatterAllSites(data: seq<Record>, range: PayloadRange)
    ensures UpdateScatter(data, AllSites, range) == Select(data, (x: Record) => InRange(x, range))
  {
    ScatterIsSelection(data, AllSites, range);
    SelectCongruent(data, ShownMask(AllSites, range), (x: Record) => InRange(x, range));
  }

  /** The chart is empty exactly when no row of the dataset is shown; in
      particular when the lower bound exceeds the upper bound, or when no
      payload falls in the range. */
  lemma ScatterEmpty(data: seq<Record>, dropdown: string, range: PayloadRange)
    ensures UpdateScatter(data, dropdown, range) == [] <==> forall x :: x in data ==> !Shown(x, dropdown, range)
    ensures range.low > range.high ==> UpdateScatter(data, dropdown, range) == []
    ensures (forall x :: x in data ==> !InRange(x, range)) ==> UpdateScatter(data, dropdown, range) == []
  {
    var rows := UpdateScatter(data, dropdown, range);
    if rows != [] {
      assert rows[0] in rows;
    }
  }
}
