/** Sorting the keys of a Go map: what sort.Strings and sort.Slice give for distinct keys. */
module Ordering {
  /** Byte-wise order of Go strings. */
  predicate Less(a: string, b: string) {
    b != "" && (a == "" || a[0] < b[0] || (a[0] == b[0] && Less(a[1..], b[1..])))
  }

  lemma {:induction false} LessIsTotal(a: string, b: string)
    ensures !(Less(a, b) && Less(b, a))
    ensures a == b <==> !Less(a, b) && !Less(b, a)
  {
    if a != "" && b != "" {
      LessIsTotal(a[1..], b[1..]);
      assert a == [a[0]] + a[1..] && b == [b[0]] + b[1..];
    }
  }

  lemma {:induction false} LessIsTransitive(a: string, b: string, c: string)
    requires Less(a, b) && Less(b, c)
    ensures Less(a, c)
  {
    if a != "" && a[0] == b[0] == c[0] {
      LessIsTransitive(a[1..], b[1..], c[1..]);
    }
  }

  ghost predicate StrictTotal<T(!new)>(less: (T, T) -> bool) {
    && (forall x, y :: less(x, y) ==> !less(y, x))
    && (forall x, y :: x != y ==> less(x, y) || less(y, x))
    && (forall x, y, z :: less(x, y) && less(y, z) ==> less(x, z))
  }

  ghost predicate Increasing<T>(s: seq<T>, less: (T, T) -> bool) {
    forall i, j :: 0 <= i < j < |s| ==> less(s[i], s[j])
  }

  lemma {:induction false} LeastExists<T(!new)>(s: set<T>, less: (T, T) -> bool) returns (least: T)
    requires StrictTotal(less) && s != {}
    ensures least in s && forall x :: x in s && x != least ==> less(least, x)
  {
    least :| least in s;
    if s != {least} {
      var other := LeastExists(s - {least}, less);
      if less(other, least) {
        least := other;
      }
    }
  }

  /** The elements of a finite set in increasing order. */
  function Sorted<T(!new)>(s: set<T>, less: (T, T) -> bool): (r: seq<T>)
    requires StrictTotal(less)
    ensures Increasing(r, less)
    ensures forall x :: x in r <==> x in s
    ensures |r| == |s|
  {
    if s == {} then
      []
    else
      assert exists least :: least in s && forall x :: x in s && x != least ==> less(least, x) by {
        var least := LeastExists(s, less);
      }
      var least :| least in s && forall x :: x in s && x != least ==> less(least, x);
      [least] + Sorted(s - {least}, less)
  }

  /** There is only one way to list a set in increasing order. */
  lemma {:induction false} IncreasingIsUnique<T(!new)>(a: seq<T>, b: seq<T>, less: (T, T) -> bool)
    requires StrictTotal(less) && Increasing(a, less) && Increasing(b, less)
    requires forall x :: x in a <==> x in b
    ensures a == b
  {
    if b != [] {
      assert b[0] in a;
    }
    if a != [] {
      assert a[0] in b;
      HeadIsLeast(a, b[0], less);
      HeadIsLeast(b, a[0], less);
      SameRest(a, b, less);
      IncreasingIsUnique(a[1..], b[1..], less);
      assert a == [a[0]] + a[1..] && b == [b[0]] + b[1..];
    }
  }

  lemma HeadIsLeast<T(!new)>(s: seq<T>, x: T, less: (T, T) -> bool)
    requires Increasing(s, less) && x in s
    ensures x == s[0] || less(s[0], x)
  {
  }

  lemma SameRest<T(!new)>(a: seq<T>, b: seq<T>, less: (T, T) -> bool)
    requires StrictTotal(less) && Increasing(a, less) && Increasing(b, less)
    requires a != [] && b != [] && a[0] == b[0] && forall x :: x in a <==> x in b
    ensures Increasing(a[1..], less) && Increasing(b[1..], less)
    ensures forall x :: x in a[1..] <==> x in b[1..]
  {
    assert a == [a[0]] + a[1..] && b == [b[0]] + b[1..];
    assert forall i :: 0 < i < |a| ==> a[i] != a[0];
    assert forall i :: 0 < i < |b| ==> b[i] != b[0];
    forall x
      ensures x in a[1..] <==> x in a && x != a[0]
      ensures x in b[1..] <==> x in b && x != b[0]
    {
    }
  }

  lemma LessIsStrictTotal()
    ensures StrictTotal(Less)
  {
    forall x, y
      ensures Less(x, y) ==> !Less(y, x)
      ensures x != y ==> Less(x, y) || Less(y, x)
    {
      LessIsTotal(x, y);
    }
    forall x, y, z | Less(x, y) && Less(y, z)
      ensures Less(x, z)
    {
      LessIsTransitive(x, y, z);
    }
  }
}
