/** Row selection and value counting as the dashboard's callbacks use them on a
    dataframe: a boolean mask `df[mask]` keeps the rows where the mask holds, in
    their original order, and `Series.value_counts().get(v, default)` counts how
    often a value occurs in a column. */
module Masks {

  /** `df[mask]`: the rows for which `keep` holds, in dataset order. */
  function Select<T(==,!new)>(rows: seq<T>, keep: T -> bool): (r: seq<T>)
    ensures |r| <= |rows|
    ensures forall x :: x in r <==> x in rows && keep(x)
  {
    if rows == [] then []
    else
      assert rows == [rows[0]] + rows[1..];
      var rest := Select(rows[1..], keep);
      if keep(rows[0]) then [rows[0]] + rest else rest
  }

  /** `sub` is obtained from `s` by deleting elements, without reordering or repeating any. */
  predicate IsSubsequence<T(==)>(sub: seq<T>, s: seq<T>)
    decreases |s|
  {
    sub == []
    || (s != [] && ((sub[0] == s[0] && IsSubsequence(sub[1..], s[1..])) || IsSubsequence(sub, s[1..])))
  }

  /** A mask selection never adds, duplicates or reorders a row. */
  lemma {:induction false} SelectIsSubsequence<T(!new)>(rows: seq<T>, keep: T -> bool)
    ensures IsSubsequence(Select(rows, keep), rows)
  {
    if rows != [] {
      SelectIsSubsequence(rows[1..], keep);
    }
  }

  /** A mask selection never repeats a row: each row occurs in the result at
      most as often as in the input. */
  lemma {:induction false} SelectMultiset<T(!new)>(rows: seq<T>, keep: T -> bool)
    ensures multiset(Select(rows, keep)) <= multiset(rows)
  {
    if rows != [] {
      assert rows == [rows[0]] + rows[1..];
      SelectMultiset(rows[1..], keep);
    }
  }

  /** A mask selection keeps every copy of a row the mask accepts and no copy
      of a row it rejects: identical rows are not merged. */
  lemma {:induction false} SelectCounts<T(!new)>(rows: seq<T>, keep: T -> bool, x: T)
    ensures multiset(Select(rows, keep))[x] == if keep(x) then multiset(rows)[x] else 0
  {
    if rows != [] {
      assert rows == [rows[0]] + rows[1..];
      SelectCounts(rows[1..], keep, x);
    }
  }

  /** Selecting by the two masks one after the other is selecting by their conjunction. */
  lemma {:induction false} SelectSelect<T(!new)>(rows: seq<T>, p: T -> bool, q: T -> bool, both: T -> bool)
    requires forall x :: both(x) == (p(x) && q(x))
    ensures Select(Select(rows, p), q) == Select(rows, both)
  {
    if rows != [] {
      SelectSelect(rows[1..], p, q, both);
      var rest := Select(rows[1..], p);
      if p(rows[0]) {
        assert Select(rows, p) == [rows[0]] + rest;
        assert ([rows[0]] + rest)[1..] == rest;
      }
    }
  }

  /** Two masks that agree on every row select the same rows. */
  lemma {:induction false} SelectCongruent<T(!new)>(rows: seq<T>, p: T -> bool, q: T -> bool)
    requires forall x :: p(x) == q(x)
    ensures Select(rows, p) == Select(rows, q)
  {
    if rows != [] {
      SelectCongruent(rows[1..], p, q);
    }
  }

  /** The order in which two masks are applied does not matter. */
  lemma {:induction false} SelectCommutes<T(!new)>(rows: seq<T>, p: T -> bool, q: T -> bool)
    ensures Select(Select(rows, p), q) == Select(Select(rows, q), p)
  {
    var both := x => p(x) && q(x);
    SelectSelect(rows, p, q, both);
    SelectSelect(rows, q, p, both);
  }

  /** Applying a mask to its own result changes nothing. */
  lemma {:induction false} SelectIdempotent<T(!new)>(rows: seq<T>, keep: T -> bool)
    ensures Select(Select(rows, keep), keep) == Select(rows, keep)
  {
    SelectSelect(rows, keep, keep, keep);
  }

  /** Selection distributes over concatenation of datasets. */
  lemma {:induction false} SelectAppend<T(!new)>(a: seq<T>, b: seq<T>, keep: T -> bool)
    ensures Select(a + b, keep) == Select(a, keep) + Select(b, keep)
  {
    if a == [] {
      assert a + b == b;
    } else {
      assert (a + b)[0] == a[0];
      assert (a + b)[1..] == a[1..] + b;
      SelectAppend(a[1..], b, keep);
    }
  }

  /** Selecting from a single row keeps it exactly when the mask holds. */
  lemma SelectSingle<T(!new)>(r: T, keep: T -> bool)
    ensures Select([r], keep) == if keep(r) then [r] else []
  {
  }

  /** A row the mask rejects contributes nothing to the selection, wherever it stands. */
  lemma SelectWithout<T(!new)>(before: seq<T>, r: T, after: seq<T>, keep: T -> bool)
    requires !keep(r)
    ensures Select(before + [r] + after, keep) == Select(before + after, keep)
  {
    SelectSingle(r, keep);
    SelectAppend(before, [r], keep);
    assert Select(before + [r], keep) == Select(before, keep);
    SelectAppend(before + [r], after, keep);
    SelectAppend(before, after, keep);
  }

  /** A row the mask keeps stays in its place in the selection. */
  lemma SelectWith<T(!new)>(before: seq<T>, r: T, after: seq<T>, keep: T -> bool)
    requires keep(r)
    ensures Select(before + [r] + after, keep) == Select(before, keep) + [r] + Select(after, keep)
  {
    SelectSingle(r, keep);
    SelectAppend(before, [r], keep);
    SelectAppend(before + [r], after, keep);
  }

  /** `Series.get(key, default)`. */
  function GetOr<K, V>(m: map<K, V>, key: K, default: V): V
  {
    if key in m then m[key] else default
  }

  /** `Series.value_counts()`: each value present in the column, mapped to its number of occurrences. */
  function ValueCounts<T(==,!new)>(column: seq<T>): (counts: map<T, nat>)
    ensures counts.Keys == set v | v in column
    ensures forall v :: v in counts ==> counts[v] >= 1
  {
    if column == [] then map[]
    else
      assert column == [column[0]] + column[1..];
      var counts := ValueCounts(column[1..]);
      counts[column[0] := GetOr(counts, column[0], 0) + 1]
  }

  /** `value_counts().get(v, 0)` is the number of occurrences of `v`, 0 when `v` is absent. */
  lemma {:induction false} ValueCountsGet<T(!new)>(column: seq<T>, v: T)
    ensures GetOr(ValueCounts(column), v, 0) == multiset(column)[v]
  {
    if column != [] {
      assert column == [column[0]] + column[1..];
      ValueCountsGet(column[1..], v);
    }
  }
}
