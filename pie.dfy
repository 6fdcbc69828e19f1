/** The data behind the success pie chart (`update_pie`): for the dropdown value
    "ALL", one slice per launch site holding that site's successful launches;
    for any other value, the "Success" and "Failed" counts of that site. */
module Pie {
  import opened Masks
  import opened Launches

  /** What the callback hands to the pie chart: slice names and slice values. */
  datatype PieData = PieData(labels: seq<string>, values: seq<int>)

  const SuccessLabel: string := "Success"
  const FailedLabel: string := "Failed"

  /** No element occurs twice. */
  predicate Distinct(s: seq<string>)
  {
    forall i, j :: 0 <= i < j < |s| ==> s[i] != s[j]
  }

  /** The sum of a sequence of slice values. */
  function Sum(values: seq<int>): int
  {
    if values == [] then 0 else values[0] + Sum(values[1..])
  }

  /** The `names="Launch Site"` grouping of the pie chart: each site of the
      rows once, in order of first appearance. The charting library does this
      grouping; this function stands in for it. */
  function SiteLabels(rows: seq<Record>): (labels: seq<string>)
    ensures Distinct(labels)
    ensures forall s :: s in labels <==> exists x :: x in rows && x.site == s
  {
    if rows == [] then []
    else
      var front := rows[..|rows| - 1];
      var last := rows[|rows| - 1];
      assert rows == front + [last];
      var labels := SiteLabels(front);
      if last.site in labels then labels else labels + [last.site]
  }

  /** The `values="class"` aggregation of the pie chart: for each slice name,
      the sum of the `class` column over the rows of that site. The charting
      library does this aggregation; this function stands in for it. */
  function SliceValues(labels: seq<string>, rows: seq<Record>): (values: seq<int>)
    ensures |values| == |labels|
    ensures forall i :: 0 <= i < |labels| ==> values[i] == ClassSum(Select(rows, AtSite(labels[i])))
  {
    if labels == [] then []
    else [ClassSum(Select(rows, AtSite(labels[0])))] + SliceValues(labels[1..], rows)
  }

  /** The "ALL" branch: only the rows of class 1 are kept, then grouped by site. */
  function AllSitesPie(data: seq<Record>): (pie: PieData)
    ensures |pie.labels| == |pie.values|
    ensures Distinct(pie.labels)
  {
    var successes := Select(data, ClassIs(1));
    var labels := SiteLabels(successes);
    PieData(labels, SliceValues(labels, successes))
  }

  /** The per-site branch: the rows of that site, and their class counts,
      `value_counts().get(1, 0)` and `value_counts().get(0, 0)`. */
  function SitePie(data: seq<Record>, site: string): (pie: PieData)
    ensures pie.labels == [SuccessLabel, FailedLabel]
    ensures |pie.values| == 2 && pie.values[0] >= 0 && pie.values[1] >= 0
  {
    var df := Select(data, AtSite(site));
    var counts := ValueCounts(Classes(df));
    PieData([SuccessLabel, FailedLabel], [GetOr(counts, 1, 0), GetOr(counts, 0, 0)])
  }

  /** `update_pie`: the pie data for a dropdown value. Any value other than
      "ALL", including one that names no site, takes the per-site branch. */
  function UpdatePie(data: seq<Record>, dropdown: string): (pie: PieData)
    ensures |pie.labels| == |pie.values|
    ensures dropdown != AllSites ==> pie.labels == [SuccessLabel, FailedLabel]
    ensures dropdown == AllSites ==> Distinct(pie.labels)
  {
    if dropdown == AllSites then AllSitesPie(data) else SitePie(data, dropdown)
  }

  // ---------------------------------------------------------------------------
  // The per-site branch

  /** The two values are the site's successful and failed launches. */
  lemma {:induction false} SitePieCounts(data: seq<Record>, site: string)
    ensures SitePie(data, site).values
         == [|Select(Select(data, AtSite(site)), ClassIs(1))|, |Select(Select(data, AtSite(site)), ClassIs(0))|]
  {
    var df := Select(data, AtSite(site));
    ClassCount(df, 1);
    ClassCount(df, 0);
  }

  /** A value is 0 when the site has no launch of that class. */
  lemma SitePieDefaults(data: seq<Record>, site: string)
    ensures (forall x :: x in data && x.site == site ==> x.outcome != 1) ==> SitePie(data, site).values[0] == 0
    ensures (forall x :: x in data && x.site == site ==> x.outcome != 0) ==> SitePie(data, site).values[1] == 0
  {
    var df := Select(data, AtSite(site));
    ClassCount(df, 1);
    ClassCount(df, 0);
  }

  /** When every class is 0 or 1, the two values add up to the site's launches. */
  lemma {:induction false} SitePieTotal(data: seq<Record>, site: string)
    requires BinaryClasses(data)
    ensures Sum(SitePie(data, site).values) == |Select(data, AtSite(site))|
  {
    var df := Select(data, AtSite(site));
    SitePieCounts(data, site);
    BinarySplit(df);
    var v := SitePie(data, site).values;
    assert Sum(v) == v[0] + Sum(v[1..]);
    assert Sum(v[1..]) == v[1] + Sum(v[1..][1..]);
  }

  /** A dropdown value that names no site in the data gives the two slices 0 and 0. */
  lemma UnknownSitePie(data: seq<Record>, dropdown: string)
    requires dropdown != AllSites
    requires forall x :: x in data ==> x.site != dropdown
    ensures UpdatePie(data, dropdown) == PieData([SuccessLabel, FailedLabel], [0, 0])
  {
    SitePieDefaults(data, dropdown);
  }

  // ---------------------------------------------------------------------------
  // The "ALL" branch

  /** Grouped slice values of rows that carry no site of the labels are all 0. */
  lemma {:induction false} SliceValuesOfNothing(labels: seq<string>)
    ensures Sum(SliceValues(labels, [])) == 0
  {
    if labels != [] {
      SliceValuesOfNothing(labels[1..]);
    }
  }

  /** Adding one row in front of the dataset adds its class to the slice of
      its site, when it has one, and to no other slice. */
  lemma {:induction false} SliceValuesCons(labels: seq<string>, r: Record, rows: seq<Record>)
    requires Distinct(labels)
    ensures Sum(SliceValues(labels, [r] + rows))
         == (if r.site in labels then r.outcome else 0) + Sum(SliceValues(labels, rows))
  {
    if labels != [] {
      var tail := labels[1..];
      assert Distinct(tail);
      SliceValuesCons(tail, r, rows);
      assert ([r] + rows)[0] == r && ([r] + rows)[1..] == rows;
      var here := Select(rows, AtSite(labels[0]));
      if r.site == labels[0] {
        assert Select([r] + rows, AtSite(labels[0])) == [r] + here;
        assert ([r] + here)[1..] == here;
        assert r.site !in tail;
      }
      assert r.site in labels <==> r.site == labels[0] || r.site in tail;
    }
  }

  /** When the labels are distinct and name every site of the rows, the slice
      values add up to the `class` sum of all the rows. */
  lemma {:induction false} SliceValuesTotal(labels: seq<string>, rows: seq<Record>)
    requires Distinct(labels)
    requires forall x :: x in rows ==> x.site in labels
    ensures Sum(SliceValues(labels, rows)) == ClassSum(rows)
  {
    if rows == [] {
      SliceValuesOfNothing(labels);
    } else {
      assert rows == [rows[0]] + rows[1..];
      assert rows[0] in rows;
      assert forall x :: x in rows[1..] ==> x in rows;
      SliceValuesCons(labels, rows[0], rows[1..]);
      SliceValuesTotal(labels, rows[1..]);
    }
  }

  /** The "ALL" pie has one slice for each site with at least one successful
      launch, and that slice's value is the number of successful launches at
      the site, which is the "Success" value of that site's own pie. */
  lemma {:induction false} AllSitesPieSlices(data: seq<Record>)
    ensures forall s :: s in AllSitesPie(data).labels <==> exists x :: x in data && x.site == s && x.outcome == 1
    ensures forall i :: 0 <= i < |AllSitesPie(data).labels| ==>
              AllSitesPie(data).values[i] == |Select(Select(data, AtSite(AllSitesPie(data).labels[i])), ClassIs(1))|
    ensures forall i :: 0 <= i < |AllSitesPie(data).labels| ==>
              AllSitesPie(data).values[i] == SitePie(data, AllSitesPie(data).labels[i]).values[0]
  {
    var successes := Select(data, ClassIs(1));
    var pie := AllSitesPie(data);
    forall s ensures s in pie.labels <==> exists x :: x in data && x.site == s && x.outcome == 1 {
      if s in pie.labels {
        var x :| x in successes && x.site == s;
        assert x in data && x.site == s && x.outcome == 1;
      }
      if exists x :: x in data && x.site == s && x.outcome == 1 {
        var x :| x in data && x.site == s && x.outcome == 1;
        assert x in successes;
      }
    }
    forall i | 0 <= i < |pie.labels|
      ensures pie.values[i] == |Select(Select(data, AtSite(pie.labels[i])), ClassIs(1))|
      ensures pie.values[i] == SitePie(data, pie.labels[i]).values[0]
    {
      var site := pie.labels[i];
      ClassSumOfSuccesses(Select(successes, AtSite(site)));
      SelectCommutes(data, ClassIs(1), AtSite(site));
      SitePieCounts(data, site);
    }
  }

  /** The "ALL" slice values add up to the number of successful launches in
      the whole dataset. */
  lemma AllSitesPieTotal(data: seq<Record>)
    ensures Sum(AllSitesPie(data).values) == |Select(data, ClassIs(1))|
  {
    var successes := Select(data, ClassIs(1));
    var labels := SiteLabels(successes);
    forall x | x in successes ensures x.site in labels {
    }
    SliceValuesTotal(labels, successes);
    ClassSumOfSuccesses(successes);
  }

  /** Unlike the per-site branch, the "ALL" branch ignores failures: inserting
      a launch whose class is not 1 anywhere in the dataset leaves it unchanged. */
  lemma AllSitesPieIgnoresFailures(before: seq<Record>, r: Record, after: seq<Record>)
    requires r.outcome != 1
    ensures AllSitesPie(before + [r] + after) == AllSitesPie(before + after)
  {
    SelectWithout(before, r, after, ClassIs(1));
  }

  /** The per-site branch does count failures: inserting a failed launch of
      the site raises its "Failed" value by one and leaves "Success" as it is. */
  lemma SitePieCountsFailures(before: seq<Record>, r: Record, after: seq<Record>)
    requires r.outcome == 0
    ensures SitePie(before + [r] + after, r.site).values[1] == SitePie(before + after, r.site).values[1] + 1
    ensures SitePie(before + [r] + after, r.site).values[0] == SitePie(before + after, r.site).values[0]
  {
    var site := r.site;
    var a := Select(before, AtSite(site));
    var b := Select(after, AtSite(site));
    SelectWith(before, r, after, AtSite(site));
    SelectAppend(before, after, AtSite(site));
    assert Select(before + [r] + after, AtSite(site)) == a + [r] + b;
    assert Select(before + after, AtSite(site)) == a + b;
    SelectWith(a, r, b, ClassIs(0));
    SelectAppend(a, b, ClassIs(0));
    SelectWithout(a, r, b, ClassIs(1));
    SitePieCounts(before + [r] + after, site);
    SitePieCounts(before + after, site);
  }
}
