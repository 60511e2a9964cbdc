/** Totals over table columns: what an SQL `SUM` over a table computes. */
module Sums {
  function Total<T>(rows: seq<T>, weight: T -> nat): nat {
    if |rows| == 0 then 0 else Total(rows[..|rows| - 1], weight) + weight(rows[|rows| - 1])
  }

  lemma TotalOfAppend<T>(rows: seq<T>, row: T, weight: T -> nat)
    ensures Total(rows + [row], weight) == Total(rows, weight) + weight(row)
  {
    assert (rows + [row])[..|rows|] == rows;
  }

  lemma {:induction false} TotalOfConcat<T>(a: seq<T>, b: seq<T>, weight: T -> nat)
    ensures Total(a + b, weight) == Total(a, weight) + Total(b, weight)
  {
    if b == [] {
      assert a + b == a;
    } else {
      assert (a + b)[..|a + b| - 1] == a + b[..|b| - 1];
      TotalOfConcat(a, b[..|b| - 1], weight);
    }
  }

  /** Replacing one row changes the total by the difference of the two weights. */
  lemma {:induction false} TotalOfUpdate<T>(rows: seq<T>, i: nat, row: T, weight: T -> nat)
    requires i < |rows|
    ensures Total(rows[i := row], weight) + weight(rows[i]) == Total(rows, weight) + weight(row)
  {
    var n := |rows| - 1;
    if i == n {
      assert rows[i := row][..n] == rows[..n];
    } else {
      assert rows[i := row][..n] == rows[..n][i := row];
      TotalOfUpdate(rows[..n], i, row, weight);
    }
  }

  /** Totals are monotone in the rows' weights. */
  lemma {:induction false} TotalMonotone<S, T>(a: seq<S>, f: S -> nat, b: seq<T>, g: T -> nat)
    requires |a| == |b|
    requires forall i :: 0 <= i < |a| ==> f(a[i]) <= g(b[i])
    ensures Total(a, f) <= Total(b, g)
  {
    if |a| > 0 {
      var n := |a| - 1;
      TotalMonotone(a[..n], f, b[..n], g);
      assert f(a[n]) <= g(b[n]);
    }
  }

  lemma TotalCongruent<S, T>(a: seq<S>, f: S -> nat, b: seq<T>, g: T -> nat)
    requires |a| == |b|
    requires forall i :: 0 <= i < |a| ==> f(a[i]) == g(b[i])
    ensures Total(a, f) == Total(b, g)
  {
    TotalMonotone(a, f, b, g);
    TotalMonotone(b, g, a, f);
  }

  lemma {:induction false} TotalAtLeast<T>(rows: seq<T>, i: nat, weight: T -> nat)
    requires i < |rows|
    ensures weight(rows[i]) <= Total(rows, weight)
  {
    if i < |rows| - 1 {
      assert rows[..|rows| - 1][i] == rows[i];
      TotalAtLeast(rows[..|rows| - 1], i, weight);
    }
  }

  /** A total does not depend on the order of its rows. */
  lemma {:induction false} TotalOfPermutation<T>(a: seq<T>, b: seq<T>, weight: T -> nat)
    requires multiset(a) == multiset(b)
    ensures Total(a, weight) == Total(b, weight)
    decreases |a|
  {
    if a == [] {
      assert |multiset(b)| == 0;
    } else {
      var n := |a| - 1;
      var last := a[n];
      assert a == a[..n] + [last];
      assert last in multiset(b);
      var i :| 0 <= i < |b| && b[i] == last;
      assert b == b[..i] + [last] + b[i + 1..];
      assert multiset(a) == multiset(a[..n]) + multiset{last};
      assert multiset(b) == multiset(b[..i]) + multiset{last} + multiset(b[i + 1..]);
      var rest := b[..i] + b[i + 1..];
      assert multiset(rest) == multiset(b[..i]) + multiset(b[i + 1..]);
      assert multiset(a[..n]) == multiset(a) - multiset{last} == multiset(b) - multiset{last} == multiset(rest);
      TotalOfPermutation(a[..n], rest, weight);
      TotalOfConcat(b[..i], b[i + 1..], weight);
      TotalOfConcat(b[..i] + [last], b[i + 1..], weight);
      TotalOfAppend(b[..i], last, weight);
    }
  }
}
