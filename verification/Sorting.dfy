/** Sorting by a strict order: what it keeps, and that it has one result. It
    stands for the library's `sorted` wherever keys are distinct. */
module Sorting {
  function Insert<T>(xs: seq<T>, x: T, less: (T, T) -> bool): seq<T> {
    if xs == [] || less(x, xs[0]) then [x] + xs else [xs[0]] + Insert(xs[1..], x, less)
  }

  function Sort<T>(xs: seq<T>, less: (T, T) -> bool): seq<T> {
    if xs == [] then [] else Insert(Sort(xs[1..], less), xs[0], less)
  }

  predicate Ordered<T>(xs: seq<T>, less: (T, T) -> bool) {
    forall i, j :: 0 <= i < j < |xs| ==> less(xs[i], xs[j])
  }

  ghost predicate SameElements<T(!new)>(a: seq<T>, b: seq<T>) {
    forall x :: x in a <==> x in b
  }

  /** The order is strict, and transitive. */
  ghost predicate StrictOrder<T(!new)>(less: (T, T) -> bool) {
    && (forall x, y :: less(x, y) ==> !less(y, x))
    && (forall x, y, z :: less(x, y) && less(y, z) ==> less(x, z))
  }

  /** The order tells the elements apart. */
  predicate Comparable<T>(xs: seq<T>, less: (T, T) -> bool) {
    forall i, j :: 0 <= i < j < |xs| ==> less(xs[i], xs[j]) || less(xs[j], xs[i])
  }

  lemma {:induction false} InsertElements<T(!new)>(xs: seq<T>, x: T, less: (T, T) -> bool)
    ensures forall y :: y in Insert(xs, x, less) <==> y == x || y in xs
    ensures |Insert(xs, x, less)| == |xs| + 1
  {
    if xs != [] && !less(x, xs[0]) {
      InsertElements(xs[1..], x, less);
      assert xs == [xs[0]] + xs[1..];
    }
  }

  lemma {:induction false} InsertOrdered<T(!new)>(xs: seq<T>, x: T, less: (T, T) -> bool)
    requires StrictOrder(less) && Ordered(xs, less)
    requires forall y :: y in xs ==> less(x, y) || less(y, x)
    ensures Ordered(Insert(xs, x, less), less)
  {
    if xs != [] {
      var rest := xs[1..];
      if less(x, xs[0]) {
        forall j | 0 <= j < |xs| ensures less(x, xs[j]) {
          if j > 0 { assert less(xs[0], xs[j]); }
        }
      } else {
        assert xs[0] in xs;
        InsertOrdered(rest, x, less);
        InsertElements(rest, x, less);
        var tail := Insert(rest, x, less);
        forall y | y in tail ensures less(xs[0], y) {
          if y != x {
            var k :| 0 <= k < |rest| && rest[k] == y;
            assert xs[k + 1] == y;
          }
        }
      }
    }
  }

  lemma {:induction false} SortElements<T(!new)>(xs: seq<T>, less: (T, T) -> bool)
    ensures SameElements(Sort(xs, less), xs) && |Sort(xs, less)| == |xs|
  {
    if xs != [] {
      SortElements(xs[1..], less);
      InsertElements(Sort(xs[1..], less), xs[0], less);
      assert xs == [xs[0]] + xs[1..];
    }
  }

  /** Sorting keeps the elements and orders them. */
  lemma {:induction false} SortOrders<T(!new)>(xs: seq<T>, less: (T, T) -> bool)
    requires StrictOrder(less) && Comparable(xs, less)
    ensures Ordered(Sort(xs, less), less) && SameElements(Sort(xs, less), xs) && |Sort(xs, less)| == |xs|
  {
    SortElements(xs, less);
    if xs != [] {
      var rest := xs[1..];
      SortOrders(rest, less);
      SortElements(rest, less);
      forall y | y in Sort(rest, less) ensures less(xs[0], y) || less(y, xs[0]) {
        var k :| 0 <= k < |rest| && rest[k] == y;
        assert xs[k + 1] == y;
      }
      InsertOrdered(Sort(rest, less), xs[0], less);
    }
  }

  lemma SomeElement<T(!new)>(xs: seq<T>)
    ensures xs == [] || exists x :: x in xs
  {
    if xs != [] { assert xs[0] in xs; }
  }

  lemma RestElement<T(!new)>(xs: seq<T>, x: T, less: (T, T) -> bool)
    requires StrictOrder(less) && Ordered(xs, less) && xs != []
    ensures x in xs[1..] <==> x in xs && x != xs[0]
  {
    if x in xs[1..] {
      var k :| 0 <= k < |xs| - 1 && xs[1..][k] == x;
      assert less(xs[0], xs[k + 1]);
    }
    assert xs == [xs[0]] + xs[1..];
  }

  lemma SameFirst<T(!new)>(a: seq<T>, b: seq<T>, less: (T, T) -> bool)
    requires StrictOrder(less) && Ordered(a, less) && Ordered(b, less) && SameElements(a, b) && a != [] && b != []
    ensures a[0] == b[0]
  {
    assert a[0] in a && b[0] in b;
    var j :| 0 <= j < |b| && b[j] == a[0];
    var i :| 0 <= i < |a| && a[i] == b[0];
    assert 0 < i ==> less(a[0], a[i]);
    assert 0 < j ==> less(b[0], b[j]);
  }

  /** An ordered sequence is determined by its elements. */
  lemma {:induction false} OrderedUnique<T(!new)>(a: seq<T>, b: seq<T>, less: (T, T) -> bool)
    requires StrictOrder(less) && Ordered(a, less) && Ordered(b, less) && SameElements(a, b)
    ensures a == b
  {
    if a == [] {
      SomeElement(b);
    } else if b == [] {
      SomeElement(a);
    } else {
      SameFirst(a, b, less);
      forall x ensures x in a[1..] <==> x in b[1..] {
        RestElement(a, x, less);
        RestElement(b, x, less);
      }
      OrderedUnique(a[1..], b[1..], less);
      assert a == [a[0]] + a[1..] && b == [b[0]] + b[1..];
    }
  }

  /** Sorting does not depend on the order of its input. */
  lemma {:induction false} SortIgnoresOrder<T(!new)>(a: seq<T>, b: seq<T>, less: (T, T) -> bool)
    requires StrictOrder(less) && Comparable(a, less) && Comparable(b, less) && SameElements(a, b)
    ensures Sort(a, less) == Sort(b, less)
  {
    SortOrders(a, less);
    SortOrders(b, less);
    OrderedUnique(Sort(a, less), Sort(b, less), less);
  }

  /** Texts in dictionary order. */
  predicate TextLess(a: string, b: string) {
    b != "" && (a == "" || a[0] < b[0] || (a[0] == b[0] && TextLess(a[1..], b[1..])))
  }

  lemma {:induction false} TextLessOrder(a: string, b: string, c: string)
    ensures TextLess(a, b) && TextLess(b, c) ==> TextLess(a, c)
    ensures !(TextLess(a, b) && TextLess(b, a))
    ensures TextLess(a, b) || TextLess(b, a) || a == b
  {
    if a != "" && b != "" {
      assert a == [a[0]] + a[1..] && b == [b[0]] + b[1..];
      TextLessOrder(a[1..], b[1..], if c != "" then c[1..] else "");
    }
  }
}
