/** Python iterates a `set` in an order the language leaves unspecified.
    The model fixes one: ascending order under a total order on the
    elements. `Ascending` enumerates a finite set exactly once per element,
    so every property that does not depend on the order carries over to
    any other enumeration. */
module Ordering {

  /** `below` is a total order (reflexive, antisymmetric, transitive, total). */
  ghost predicate TotalOrder<T(!new)>(below: (T, T) -> bool) {
    && (forall a, b :: below(a, b) || below(b, a))
    && (forall a, b :: below(a, b) && below(b, a) ==> a == b)
    && (forall a, b, c :: below(a, b) && below(b, c) ==> below(a, c))
  }

  predicate IsLeast<T>(below: (T, T) -> bool, m: T, s: set<T>) {
    m in s && forall x | x in s :: below(m, x)
  }

  lemma {:induction false} LeastExists<T(!new)>(below: (T, T) -> bool, s: set<T>)
    requires TotalOrder(below)
    requires s != {}
    ensures exists m :: IsLeast(below, m, s)
    decreases |s|
  {
    var y :| y in s;
    assert below(y, y);
    if s == {y} {
      assert IsLeast(below, y, s);
    } else {
      LeastExists(below, s - {y});
      var m :| IsLeast(below, m, s - {y});
      if below(m, y) {
        assert IsLeast(below, m, s);
      } else {
        assert IsLeast(below, y, s);
      }
    }
  }

  lemma LeastUnique<T(!new)>(below: (T, T) -> bool, s: set<T>)
    requires TotalOrder(below)
    ensures forall a, b | IsLeast(below, a, s) && IsLeast(below, b, s) :: a == b
  {
  }

  ghost predicate Distinct<T>(xs: seq<T>) {
    forall i, j | 0 <= i < j < |xs| :: xs[i] != xs[j]
  }

  ghost predicate SortedBy<T>(below: (T, T) -> bool, xs: seq<T>) {
    forall i, j | 0 <= i < j < |xs| :: below(xs[i], xs[j])
  }

  /** The elements of `s`, each exactly once, in ascending order. */
  function Ascending<T(!new)>(below: (T, T) -> bool, s: set<T>): (xs: seq<T>)
    requires TotalOrder(below)
    ensures forall x :: x in xs <==> x in s
    ensures Distinct(xs)
    ensures |xs| == |s|
    ensures SortedBy(below, xs)
    decreases |s|
  {
    if s == {} then []
    else
      LeastExists(below, s);
      LeastUnique(below, s);
      var m :| IsLeast(below, m, s);
      [m] + Ascending(below, s - {m})
  }

  /** Lexicographic order on strings by character code, the order Python's
      `sorted` gives them. */
  predicate StrBelow(a: string, b: string) {
    |a| == 0 || (|b| > 0 && (a[0] < b[0] || (a[0] == b[0] && StrBelow(a[1..], b[1..]))))
  }

  lemma {:induction false} StrBelowTotal(a: string, b: string)
    ensures StrBelow(a, b) || StrBelow(b, a)
    decreases |a|
  {
    if |a| > 0 && |b| > 0 && a[0] == b[0] {
      StrBelowTotal(a[1..], b[1..]);
    }
  }

  lemma {:induction false} StrBelowAntisymmetric(a: string, b: string)
    requires StrBelow(a, b) && StrBelow(b, a)
    ensures a == b
    decreases |a|
  {
    if |a| > 0 {
      StrBelowAntisymmetric(a[1..], b[1..]);
      assert a == [a[0]] + a[1..] && b == [b[0]] + b[1..];
    }
  }

  lemma {:induction false} StrBelowTransitive(a: string, b: string, c: string)
    requires StrBelow(a, b) && StrBelow(b, c)
    ensures StrBelow(a, c)
    decreases |a|
  {
    if |a| > 0 && a[0] == b[0] && b[0] == c[0] {
      StrBelowTransitive(a[1..], b[1..], c[1..]);
    }
  }

  lemma StrBelowIsTotalOrder()
    ensures TotalOrder(StrBelow)
  {
    forall a, b ensures StrBelow(a, b) || StrBelow(b, a) {
      StrBelowTotal(a, b);
    }
    forall a, b | StrBelow(a, b) && StrBelow(b, a) ensures a == b {
      StrBelowAntisymmetric(a, b);
    }
    forall a, b, c | StrBelow(a, b) && StrBelow(b, c) ensures StrBelow(a, c) {
      StrBelowTransitive(a, b, c);
    }
  }

  /** The strings of `s` in ascending order (`sorted(s)`). */
  function SortedStrings(s: set<string>): (xs: seq<string>)
    ensures forall x :: x in xs <==> x in s
    ensures Distinct(xs)
    ensures |xs| == |s|
    ensures SortedBy(StrBelow, xs)
  {
    StrBelowIsTotalOrder();
    Ascending(StrBelow, s)
  }

  // ---------------------------------------------------------------------
  // Sorting a sequence that may repeat elements
  // ---------------------------------------------------------------------

  /** `x` inserted into `ys` before the first element above it. */
  function Insert<T>(below: (T, T) -> bool, x: T, ys: seq<T>): (zs: seq<T>)
    ensures multiset(zs) == multiset(ys) + multiset{x}
  {
    if ys == [] then [x]
    else if below(x, ys[0]) then [x] + ys
    else
      assert ys == [ys[0]] + ys[1..];
      [ys[0]] + Insert(below, x, ys[1..])
  }

  lemma {:induction false} InsertSorted<T(!new)>(below: (T, T) -> bool, x: T, ys: seq<T>)
    requires TotalOrder(below)
    requires SortedBy(below, ys)
    ensures SortedBy(below, Insert(below, x, ys))
  {
    if ys != [] && !below(x, ys[0]) {
      var rest := Insert(below, x, ys[1..]);
      InsertSorted(below, x, ys[1..]);
      forall j | 0 <= j < |rest| ensures below(ys[0], rest[j]) {
        assert rest[j] in multiset(rest);
        assert rest[j] == x || rest[j] in multiset(ys[1..]);
      }
    }
  }

  /** `sorted(xs)`: the elements of `xs`, as often as they occur there, in
      ascending order. */
  function Sort<T(!new)>(below: (T, T) -> bool, xs: seq<T>): (ys: seq<T>)
    requires TotalOrder(below)
    ensures SortedBy(below, ys)
    ensures multiset(ys) == multiset(xs)
  {
    if xs == [] then []
    else
      assert xs == [xs[0]] + xs[1..];
      InsertSorted(below, xs[0], Sort(below, xs[1..]));
      Insert(below, xs[0], Sort(below, xs[1..]))
  }

  lemma HeadBelowAll<T(!new)>(below: (T, T) -> bool, a: seq<T>, x: T)
    requires TotalOrder(below)
    requires SortedBy(below, a)
    requires x in multiset(a)
    ensures below(a[0], x)
  {
    var k :| 0 <= k < |a| && a[k] == x;
  }

  lemma TailMultiset<T>(a: seq<T>)
    requires a != []
    ensures multiset(a[1..]) == multiset(a) - multiset{a[0]}
  {
    assert a == [a[0]] + a[1..];
  }

  /** There is only one sorted arrangement of a multiset. */
  lemma {:induction false} SortedUnique<T(!new)>(below: (T, T) -> bool, a: seq<T>, b: seq<T>)
    requires TotalOrder(below)
    requires SortedBy(below, a) && SortedBy(below, b)
    requires multiset(a) == multiset(b)
    ensures a == b
    decreases |a|
  {
    if a != [] {
      assert a[0] in multiset(b);
      assert b != [];
      assert b[0] in multiset(a);
      HeadBelowAll(below, a, b[0]);
      HeadBelowAll(below, b, a[0]);
      assert a[0] == b[0];
      TailMultiset(a);
      TailMultiset(b);
      SortedUnique(below, a[1..], b[1..]);
      assert a == [a[0]] + a[1..];
      assert b == [b[0]] + b[1..];
    }
  }

  /** So sorting forgets the order it was given the elements in. */
  lemma SortForgetsOrder<T(!new)>(below: (T, T) -> bool, xs: seq<T>, ys: seq<T>)
    requires TotalOrder(below)
    requires multiset(xs) == multiset(ys)
    ensures Sort(below, xs) == Sort(below, ys)
  {
    SortedUnique(below, Sort(below, xs), Sort(below, ys));
  }
}
