/** The launch dataset the dashboard reads: one record per launch, with its
    site, its payload mass and its outcome class, and the boolean masks the two
    callbacks build over it. */
module Launches {
  import opened Masks

  /** One row of the dataset: `Launch Site`, `Payload Mass (kg)` and `class`
      (1 for a successful outcome, 0 for a failed one). */
  datatype Record = Record(site: string, payload: real, outcome: int)

  /** The dropdown value that selects every launch site. */
  const AllSites: string := "ALL"

  /** The mask `df["class"] == c`. */
  function ClassIs(c: int): Record -> bool
  {
    (x: Record) => x.outcome == c
  }

  /** The mask `df["Launch Site"] == site`. */
  function AtSite(site: string): Record -> bool
  {
    (x: Record) => x.site == site
  }

  /** The mask `df["Payload Mass (kg)"] <= high`. */
  function PayloadAtMost(high: real): Record -> bool
  {
    (x: Record) => x.payload <= high
  }

  /** The mask `df["Payload Mass (kg)"] >= low`. */
  function PayloadAtLeast(low: real): Record -> bool
  {
    (x: Record) => x.payload >= low
  }

  /** Every class in the dataset is 0 or 1. */
  predicate BinaryClasses(rows: seq<Record>)
  {
    forall x :: x in rows ==> x.outcome == 0 || x.outcome == 1
  }

  /** The column `df["class"]`. */
  function Classes(rows: seq<Record>): (column: seq<int>)
    ensures |column| == |rows|
    ensures forall i :: 0 <= i < |rows| ==> column[i] == rows[i].outcome
  {
    if rows == [] then [] else [rows[0].outcome] + Classes(rows[1..])
  }

  /** The sum of the `class` column over the rows. */
  function ClassSum(rows: seq<Record>): int
  {
    if rows == [] then 0 else rows[0].outcome + ClassSum(rows[1..])
  }

  /** The number of occurrences of class `c` in the `class` column is the
      number of rows the mask `class == c` keeps. */
  lemma {:induction false} ClassOccurrences(rows: seq<Record>, c: int)
    ensures multiset(Classes(rows))[c] == |Select(rows, ClassIs(c))|
  {
    if rows != [] {
      assert Classes(rows) == [rows[0].outcome] + Classes(rows[1..]);
      ClassOccurrences(rows[1..], c);
    }
  }

  /** `df["class"].value_counts().get(c, 0)` counts the rows of class `c`,
      and is 0 when no row has that class. */
  lemma {:induction false} ClassCount(rows: seq<Record>, c: int)
    ensures GetOr(ValueCounts(Classes(rows)), c, 0) == |Select(rows, ClassIs(c))|
    ensures (forall x :: x in rows ==> x.outcome != c) ==> GetOr(ValueCounts(Classes(rows)), c, 0) == 0
  {
    ValueCountsGet(Classes(rows), c);
    ClassOccurrences(rows, c);
    var kept := Select(rows, ClassIs(c));
    if kept != [] {
      assert kept[0] in kept;
    }
  }

  /** When every class is 0 or 1, the rows of class 1 and of class 0 together
      are all the rows. */
  lemma {:induction false} BinarySplit(rows: seq<Record>)
    requires BinaryClasses(rows)
    ensures |Select(rows, ClassIs(1))| + |Select(rows, ClassIs(0))| == |rows|
  {
    if rows != [] {
      assert rows[0] in rows;
      assert BinaryClasses(rows[1..]) by {
        forall x | x in rows[1..] ensures x.outcome == 0 || x.outcome == 1 {
          assert x in rows;
        }
      }
      BinarySplit(rows[1..]);
    }
  }

  /** Summing the `class` column of rows that are all successes counts them. */
  lemma {:induction false} ClassSumOfSuccesses(rows: seq<Record>)
    requires forall x :: x in rows ==> x.outcome == 1
    ensures ClassSum(rows) == |rows|
  {
    if rows != [] {
      assert rows[0] in rows;
      assert forall x :: x in rows[1..] ==> x in rows;
      ClassSumOfSuccesses(rows[1..]);
    }
  }
}
