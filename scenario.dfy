/** A worked example: three launches, two from CCAFS LC-40 (one success, one
    failure) and one successful launch from KSC LC-39A. */
module Scenario {
  import opened Masks
  import opened Launches
  import opened Pie
  import opened Scatter

  const First: Record := Record("CCAFS LC-40", 500.0, 1)
  const Second: Record := Record("CCAFS LC-40", 2000.0, 0)
  const Third: Record := Record("KSC LC-39A", 3000.0, 1)

  function Dataset(): seq<Record>
  {
    [First, Second, Third]
  }

  /** "ALL" gives one slice per site, each with its single success; the
      failure at CCAFS LC-40 is left out. */
  lemma AllSitesExample()
    ensures UpdatePie(Dataset(), AllSites) == PieData(["CCAFS LC-40", "KSC LC-39A"], [1, 1])
  {
    var successes := Select(Dataset(), ClassIs(1));
    assert Dataset()[1..] == [Second, Third];
    assert [Second, Third][1..] == [Third];
    assert [Third][1..] == [];
    assert successes == [First, Third];
    assert [First, Third][..1] == [First];
    assert [First][..0] == [];
    assert SiteLabels(successes) == ["CCAFS LC-40", "KSC LC-39A"];
    assert First.site != "KSC LC-39A";
    assert Select(successes, AtSite("CCAFS LC-40")) == [First];
    assert Select(successes, AtSite("KSC LC-39A")) == [Third];
  }

  /** A single site counts its failure too: one success and one failure. */
  lemma SiteExample()
    ensures UpdatePie(Dataset(), "CCAFS LC-40") == PieData([SuccessLabel, FailedLabel], [1, 1])
  {
  }

  /** The range [0, 2500] keeps the first two launches, in order. */
  lemma ScatterExample()
    ensures UpdateScatter(Dataset(), AllSites, PayloadRange(0.0, 2500.0)) == [First, Second]
  {
  }

  /** The range [0, 0] holds no payload of the dataset: the chart is empty. */
  lemma EmptyRangeExample()
    ensures UpdateScatter(Dataset(), AllSites, PayloadRange(0.0, 0.0)) == []
  {
  }
}
