/** The pandas Series operations the summary step applies to one column of records.
    A column is a sequence of optional values; `None` is a missing entry (NaN). */
module Series {
  import opened Wrappers

  /** `mask.sum()` for a boolean Series: the number of true entries. */
  function Sum(mask: seq<bool>): (n: nat)
    ensures n == multiset(mask)[true]
  {
    if mask == [] then 0
    else
      assert mask == [mask[0]] + mask[1..];
      (if mask[0] then 1 else 0) + Sum(mask[1..])
  }

  /** `value_counts()`: every distinct non-null value with how often it occurs.
      Built one row at a time, as a dictionary of running counts. */
  function ValueCounts<T(!new)>(xs: seq<Option<T>>): (m: map<T, nat>)
    ensures |m| + multiset(xs)[None] <= |xs|
  {
    if xs == [] then map[]
    else
      var init, last := xs[..|xs| - 1], xs[|xs| - 1];
      assert xs == init + [last];
      var m := ValueCounts(init);
      match last
      case None => m
      case Some(v) => m[v := if v in m then m[v] + 1 else 1]
  }

  /** The set of non-null values of a column. */
  function NonNull<T(!new)>(xs: seq<Option<T>>): (s: set<T>)
    ensures forall v :: v in s <==> Some(v) in xs
    ensures |s| + multiset(xs)[None] <= |xs|
  {
    if xs == [] then {}
    else
      var init, last := xs[..|xs| - 1], xs[|xs| - 1];
      assert xs == init + [last];
      match last
      case None => NonNull(init)
      case Some(v) => NonNull(init) + {v}
  }

  /** `nunique()`: the number of distinct non-null values. It is at most the number of
      non-null entries, and it is zero exactly when every entry is null. */
  function NUnique<T(==,!new)>(xs: seq<Option<T>>): (n: nat)
    ensures n + multiset(xs)[None] <= |xs|
    ensures n == 0 <==> forall k :: 0 <= k < |xs| ==> xs[k].None?
  {
    var s := NonNull(xs);
    assert (exists k :: 0 <= k < |xs| && xs[k].Some?) ==> |s| > 0 by {
      if k :| 0 <= k < |xs| && xs[k].Some? {
        assert xs[k].value in s;
      }
    }
    |s|
  }

  /** `isnull()`: true exactly at the missing entries. */
  function IsNull<T>(xs: seq<Option<T>>): seq<bool> {
    seq(|xs|, k requires 0 <= k < |xs| => xs[k].None?)
  }

  /** `duplicated()` (keep='first'): true at every position whose value already occurred
      at an earlier position. Missing entries compare equal to each other, as in pandas. */
  function Duplicated<T(==)>(xs: seq<T>): seq<bool> {
    seq(|xs|, k requires 0 <= k < |xs| => xs[k] in xs[..k])
  }

  /** The distinct values of a column, a missing entry counting as one value. */
  function Elements<T>(xs: seq<T>): set<T> {
    set x | x in xs
  }

  /** `isnull().sum()` is the number of missing entries. */
  lemma {:induction false} NullCount<T>(xs: seq<Option<T>>)
    ensures Sum(IsNull(xs)) == multiset(xs)[None]
    decreases |xs|
  {
    if xs != [] {
      var init, last := xs[..|xs| - 1], xs[|xs| - 1];
      assert xs == init + [last];
      NullCount(init);
      assert IsNull(xs) == IsNull(init) + [last.None?];
    }
  }

  /** Appending a value to a column extends `duplicated()` by one entry, which is true
      exactly when the value is already present. */
  lemma DuplicatedSnoc<T>(xs: seq<T>, x: T)
    ensures Duplicated(xs + [x]) == Duplicated(xs) + [x in xs]
  {
    var ys := xs + [x];
    forall k | 0 <= k < |xs|
      ensures Duplicated(ys)[k] == Duplicated(xs)[k]
    {
      assert ys[..k] == xs[..k];
    }
    assert ys[..|xs|] == xs;
  }

  /** Appending a value whose equal is already present raises `duplicated().sum()` by one;
      appending a new value leaves it unchanged. */
  lemma DuplicatedSumSnoc<T>(xs: seq<T>, x: T)
    ensures Sum(Duplicated(xs + [x])) == Sum(Duplicated(xs)) + (if x in xs then 1 else 0)
  {
    DuplicatedSnoc(xs, x);
  }

  /** `duplicated().sum()` is the length minus the number of distinct values. */
  lemma {:induction false} DuplicatedCount<T>(xs: seq<T>)
    ensures Sum(Duplicated(xs)) + |Elements(xs)| == |xs|
    decreases |xs|
  {
    if xs != [] {
      var init, last := xs[..|xs| - 1], xs[|xs| - 1];
      assert xs == init + [last];
      DuplicatedCount(init);
      DuplicatedSumSnoc(init, last);
      assert Elements(xs) == Elements(init) + {last};
      if last in init {
        assert last in Elements(init);
      }
    }
  }

  /** `duplicated().sum()` is zero exactly when no value occurs twice. */
  lemma NoDuplicates<T>(xs: seq<T>)
    ensures Sum(Duplicated(xs)) == 0 <==> forall i, j :: 0 <= i < j < |xs| ==> xs[i] != xs[j]
  {
    var mask := Duplicated(xs);
    if Sum(mask) == 0 {
      forall i, j | 0 <= i < j < |xs|
        ensures xs[i] != xs[j]
      {
        assert true !in multiset(mask);
        assert !mask[j];
        assert xs[..j][i] == xs[i];
      }
    } else {
      assert true in mask;
      var j :| 0 <= j < |mask| && mask[j];
      var i :| 0 <= i < j && xs[..j][i] == xs[j];
      assert xs[i] == xs[j];
    }
  }

  /** The sum of the counts in a dictionary of counts. */
  ghost function SumValues<T>(m: map<T, nat>): nat
    decreases |m|
  {
    if m == map[] then 0
    else
      var k :| k in m;
      assert |m - {k}| < |m| by {
        assert (m - {k}).Keys == m.Keys - {k};
      }
      m[k] + SumValues(m - {k})
  }

  /** The sum does not depend on which key is taken first. */
  lemma {:induction false} SumValuesRemove<T>(m: map<T, nat>, k: T)
    requires k in m
    ensures SumValues(m) == m[k] + SumValues(m - {k})
    decreases |m|
  {
    var j :| j in m && SumValues(m) == m[j] + SumValues(m - {j});
    if j != k {
      assert (m - {j}).Keys == m.Keys - {j};
      assert (m - {k}).Keys == m.Keys - {k};
      SumValuesRemove(m - {j}, k);
      SumValuesRemove(m - {k}, j);
      assert m - {j} - {k} == m - {k} - {j};
    }
  }

  /** Setting key v to c changes the sum by c minus v's old count. */
  lemma SumValuesUpdate<T>(m: map<T, nat>, v: T, c: nat)
    ensures SumValues(m[v := c]) + (if v in m then m[v] else 0) == SumValues(m) + c
  {
    var m' := m[v := c];
    SumValuesRemove(m', v);
    assert m' - {v} == m - {v};
    if v in m {
      SumValuesRemove(m, v);
    } else {
      assert m - {v} == m;
    }
  }

  /** Counting one more row: a null leaves the counts as they were, a value v adds one to
      v's count, starting it at 1. */
  lemma ValueCountsSnoc<T(!new)>(xs: seq<Option<T>>, x: Option<T>)
    ensures ValueCounts(xs + [x]) == match x
      case None => ValueCounts(xs)
      case Some(v) => ValueCounts(xs)[v := if v in ValueCounts(xs) then ValueCounts(xs)[v] + 1 else 1]
  {
    var ys := xs + [x];
    assert ys[..|ys| - 1] == xs;
  }

  /** `value_counts()` has a key for exactly the non-null values of the column, and maps
      each to its number of occurrences, which is at least 1. */
  lemma {:induction false} ValueCountsMeaning<T(!new)>(xs: seq<Option<T>>)
    ensures forall v :: v in ValueCounts(xs) <==> Some(v) in xs
    ensures forall v :: v in ValueCounts(xs) ==> ValueCounts(xs)[v] == multiset(xs)[Some(v)] >= 1
    decreases |xs|
  {
    if xs != [] {
      var init, last := xs[..|xs| - 1], xs[|xs| - 1];
      assert xs == init + [last];
      ValueCountsMeaning(init);
      ValueCountsSnoc(init, last);
    }
  }

  /** The counts of `value_counts()` add up to the number of non-null entries. */
  lemma {:induction false} ValueCountsTotal<T(!new)>(xs: seq<Option<T>>)
    ensures SumValues(ValueCounts(xs)) + multiset(xs)[None] == |xs|
    decreases |xs|
  {
    if xs != [] {
      var init, last := xs[..|xs| - 1], xs[|xs| - 1];
      assert xs == init + [last];
      ValueCountsTotal(init);
      var m := ValueCounts(init);
      ValueCountsSnoc(init, last);
      assert multiset(xs)[None] == multiset(init)[None] + (if last.None? then 1 else 0);
      if last.Some? {
        var v := last.value;
        SumValuesUpdate(m, v, if v in m then m[v] + 1 else 1);
      }
    }
  }

  /** A column holding one value throughout counts that value once per entry. */
  lemma {:induction false} ConstantOccurrences<T>(xs: seq<T>, x: T)
    requires forall k :: 0 <= k < |xs| ==> xs[k] == x
    ensures multiset(xs)[x] == |xs|
    decreases |xs|
  {
    if xs != [] {
      assert xs == [xs[0]] + xs[1..];
      ConstantOccurrences(xs[1..], x);
    }
  }
}
