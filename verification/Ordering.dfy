/** Sorting with a comparator, and when its outcome does not depend on the order of its input. */
module Ordering {

  // ----------------------------------------------------------------- strings

  /** Comparison of strings character by character, a prefix first. */
  predicate StrLess(a: string, b: string) {
    b != [] && (a == [] || a[0] < b[0] || (a[0] == b[0] && StrLess(a[1..], b[1..])))
  }

  lemma {:induction false} StrLessTransitive(a: string, b: string, c: string)
    requires StrLess(a, b) && StrLess(b, c)
    ensures StrLess(a, c)
  {
    if a != [] && a[0] == b[0] == c[0] { StrLessTransitive(a[1..], b[1..], c[1..]); }
  }

  lemma {:induction false} StrLessAsymmetric(a: string, b: string)
    requires StrLess(a, b)
    ensures !StrLess(b, a) && a != b
  {
    if a != [] && a[0] == b[0] { StrLessAsymmetric(a[1..], b[1..]); }
  }

  lemma {:induction false} StrLessTotal(a: string, b: string)
    ensures a == b || StrLess(a, b) || StrLess(b, a)
  {
    if a != [] && b != [] && a[0] == b[0] {
      StrLessTotal(a[1..], b[1..]);
      assert a == [a[0]] + a[1..] && b == [b[0]] + b[1..];
    }
  }

  // ------------------------------------------------------------------ sorting

  /** Stable insertion: before the first element it precedes. */
  function Insert<T(!new)>(s: seq<T>, x: T, less: (T, T) -> bool): (r: seq<T>)
    ensures |r| == |s| + 1
    ensures forall y :: y in r <==> y in s || y == x
  {
    if s == [] then [x]
    else
      assert s == [s[0]] + s[1..];
      if less(x, s[0]) then [x] + s else [s[0]] + Insert(s[1..], x, less)
  }

  function SortBy<T(!new)>(s: seq<T>, less: (T, T) -> bool): (r: seq<T>)
    ensures |r| == |s|
    ensures forall y :: y in r <==> y in s
  {
    if s == [] then []
    else
      var n := |s| - 1;
      assert s == s[..n] + [s[n]];
      Insert(SortBy(s[..n], less), s[n], less)
  }

  ghost predicate Ordered<T(!new)>(s: seq<T>, less: (T, T) -> bool) {
    forall i, j :: 0 <= i < j < |s| ==> less(s[i], s[j])
  }

  ghost predicate StrictOrder<T(!new)>(less: (T, T) -> bool) {
    && (forall x, y :: less(x, y) ==> !less(y, x))
    && (forall x, y, z :: less(x, y) && less(y, z) ==> less(x, z))
  }

  /** Any two elements at different places are comparable: in particular there are no doubles. */
  ghost predicate Comparable<T(!new)>(s: seq<T>, less: (T, T) -> bool) {
    forall i, j :: 0 <= i < j < |s| ==> less(s[i], s[j]) || less(s[j], s[i])
  }

  lemma {:induction false} InsertOrders<T(!new)>(s: seq<T>, x: T, less: (T, T) -> bool)
    requires StrictOrder(less) && Ordered(s, less)
    requires forall y :: y in s ==> less(x, y) || less(y, x)
    ensures Ordered(Insert(s, x, less), less)
  {
    if s != [] && !less(x, s[0]) {
      assert s == [s[0]] + s[1..];
      assert less(s[0], x) by { assert s[0] in s; }
      assert Ordered(s[1..], less) by {
        forall i, j | 0 <= i < j < |s[1..]| ensures less(s[1..][i], s[1..][j]) { assert less(s[i + 1], s[j + 1]); }
      }
      InsertOrders(s[1..], x, less);
      var t := Insert(s[1..], x, less);
      forall j | 0 <= j < |t| ensures less(s[0], t[j]) {
        if t[j] != x {
          assert t[j] in t && t[j] in s[1..];
          var k :| 0 <= k < |s[1..]| && s[1..][k] == t[j];
          assert less(s[0], s[k + 1]);
        }
      }
    } else if s != [] {
      forall j | 0 <= j < |s| ensures less(x, s[j]) {
        if j > 0 { assert less(s[0], s[j]); }
      }
    }
  }

  /** Sorting comparable elements puts them in strict order. */
  lemma {:induction false} SortOrders<T(!new)>(s: seq<T>, less: (T, T) -> bool)
    requires StrictOrder(less) && Comparable(s, less)
    ensures Ordered(SortBy(s, less), less)
  {
    if s != [] {
      var n := |s| - 1;
      SortOrders(s[..n], less);
      forall y | y in SortBy(s[..n], less) ensures less(s[n], y) || less(y, s[n]) {
        var k :| 0 <= k < n && s[..n][k] == y;
        assert less(s[k], s[n]) || less(s[n], s[k]);
      }
      InsertOrders(SortBy(s[..n], less), s[n], less);
    }
  }

  ghost predicate SameElements<T(!new)>(a: seq<T>, b: seq<T>) {
    forall x :: x in a <==> x in b
  }

  /** There is only one way to put given elements in strict order. */
  lemma {:induction false} OneOrder<T(!new)>(a: seq<T>, b: seq<T>, less: (T, T) -> bool)
    requires StrictOrder(less) && Ordered(a, less) && Ordered(b, less) && SameElements(a, b)
    ensures a == b
  {
    if |b| > 0 { FirstIn(b); }
    if a != [] {
      FirstIn(a);
      var x, y := a[0], b[0];
      HeadLeast(a, y, less);
      HeadLeast(b, x, less);
      assert x == y;
      TailElements(a, b, less);
      OneOrder(a[1..], b[1..], less);
      assert a == [a[0]] + a[1..] && b == [b[0]] + b[1..];
    }
  }

  lemma FirstIn<T>(s: seq<T>)
    requires |s| > 0
    ensures s[0] in s && exists x :: x in s
  {
    assert s[0] in s;
  }

  lemma HeadLeast<T(!new)>(s: seq<T>, x: T, less: (T, T) -> bool)
    requires Ordered(s, less) && x in s
    ensures x == s[0] || less(s[0], x)
  {
    var k :| 0 <= k < |s| && s[k] == x;
    assert k > 0 ==> less(s[0], s[k]);
  }

  lemma TailElements<T(!new)>(a: seq<T>, b: seq<T>, less: (T, T) -> bool)
    requires StrictOrder(less) && Ordered(a, less) && Ordered(b, less) && SameElements(a, b)
    requires a != [] && b != [] && a[0] == b[0]
    ensures Ordered(a[1..], less) && Ordered(b[1..], less) && SameElements(a[1..], b[1..])
  {
    TailOrdered(a, less);
    TailOrdered(b, less);
    assert a == [a[0]] + a[1..] && b == [b[0]] + b[1..];
    forall x ensures x in a[1..] <==> x in b[1..] {
      assert x in a <==> x in b;
    }
  }

  lemma TailOrdered<T(!new)>(a: seq<T>, less: (T, T) -> bool)
    requires StrictOrder(less) && Ordered(a, less) && a != []
    ensures Ordered(a[1..], less) && a[0] !in a[1..]
  {
    forall i, j | 0 <= i < j < |a[1..]| ensures less(a[1..][i], a[1..][j]) { assert less(a[i + 1], a[j + 1]); }
    forall i | 0 <= i < |a[1..]| ensures a[1..][i] != a[0] { assert less(a[0], a[i + 1]); }
  }

  /** So sorting comparable elements does not depend on the order they come in. */
  lemma SortForgetsOrder<T(!new)>(a: seq<T>, b: seq<T>, less: (T, T) -> bool)
    requires StrictOrder(less) && Comparable(a, less) && Comparable(b, less) && SameElements(a, b)
    ensures SortBy(a, less) == SortBy(b, less)
  {
    SortOrders(a, less);
    SortOrders(b, less);
    OneOrder(SortBy(a, less), SortBy(b, less), less);
  }

  // ------------------------------------------------------------ map and filter

  function Map<T, U>(s: seq<T>, f: T -> U): (r: seq<U>)
    ensures |r| == |s| && forall i :: 0 <= i < |s| ==> r[i] == f(s[i])
  {
    seq(|s|, i requires 0 <= i < |s| => f(s[i]))
  }

  function Filter<T(!new)>(s: seq<T>, p: T -> bool): (r: seq<T>)
    ensures forall x :: x in r <==> x in s && p(x)
    ensures |r| <= |s|
  {
    if s == [] then []
    else
      assert s == [s[0]] + s[1..];
      (if p(s[0]) then [s[0]] else []) + Filter(s[1..], p)
  }

  lemma MapCons<T, U>(x: T, s: seq<T>, f: T -> U)
    ensures Map([x] + s, f) == [f(x)] + Map(s, f)
  {
  }

  lemma {:induction false} InsertMaps<T(!new), U(!new)>(s: seq<T>, x: T, less: (T, T) -> bool, f: T -> U,
                                                        less': (U, U) -> bool)
    requires forall y :: y in s ==> less(x, y) == less'(f(x), f(y))
    ensures Map(Insert(s, x, less), f) == Insert(Map(s, f), f(x), less')
  {
    if s == [] {
      assert Map([x], f) == [f(x)];
    } else {
      var head, tail := s[0], s[1..];
      assert s == [head] + tail;
      assert head in s && forall y :: y in tail ==> y in s;
      InsertMaps(tail, x, less, f, less');
      MapCons(head, tail, f);
      MapCons(x, s, f);
      MapCons(head, Insert(tail, x, less), f);
      hide Map;
      assert Map(s, f)[1..] == Map(tail, f);
    }
  }

  /** Sorting by what a comparator looks at is sorting by that. */
  lemma {:induction false} SortMaps<T(!new), U(!new)>(s: seq<T>, less: (T, T) -> bool, f: T -> U, less': (U, U) -> bool)
    requires forall x, y :: x in s && y in s ==> less(x, y) == less'(f(x), f(y))
    ensures Map(SortBy(s, less), f) == SortBy(Map(s, f), less')
  {
    if s == [] {
      assert Map(s, f) == [];
    } else {
      var n := |s| - 1;
      assert s == s[..n] + [s[n]];
      SortMaps(s[..n], less, f, less');
      InsertMaps(SortBy(s[..n], less), s[n], less, f, less');
      assert Map(s, f)[..n] == Map(s[..n], f);
    }
  }
}
