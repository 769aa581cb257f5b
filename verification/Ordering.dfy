/** Byte-wise string order, sorting, and the fact that a sorted arrangement is unique. */
module Ordering {

  /** Go's byte-wise string order, as a reflexive relation. */
  predicate StringLeq(a: string, b: string) {
    a == [] || (b != [] && (a[0] < b[0] || (a[0] == b[0] && StringLeq(a[1..], b[1..]))))
  }

  ghost predicate TotalOrder<T(!new)>(leq: (T, T) -> bool) {
    && (forall x, y :: leq(x, y) || leq(y, x))
    && (forall x, y :: leq(x, y) && leq(y, x) ==> x == y)
    && (forall x, y, z :: leq(x, y) && leq(y, z) ==> leq(x, z))
  }

  lemma {:induction false} StringAntisymmetric(a: string, b: string)
    requires StringLeq(a, b) && StringLeq(b, a)
    ensures a == b
  {
    if a != [] && b != [] {
      StringAntisymmetric(a[1..], b[1..]);
      assert a == [a[0]] + a[1..] && b == [b[0]] + b[1..];
    }
  }

  lemma {:induction false} StringTotal(a: string, b: string)
    ensures StringLeq(a, b) || StringLeq(b, a)
  {
    if a != [] && b != [] { StringTotal(a[1..], b[1..]); }
  }

  lemma {:induction false} StringTransitive(a: string, b: string, c: string)
    requires StringLeq(a, b) && StringLeq(b, c)
    ensures StringLeq(a, c)
  {
    if a != [] && a[0] == b[0] && b[0] == c[0] { StringTransitive(a[1..], b[1..], c[1..]); }
  }

  lemma StringOrderIsTotal()
    ensures TotalOrder(StringLeq)
  {
    forall x, y ensures StringLeq(x, y) || StringLeq(y, x) { StringTotal(x, y); }
    forall x, y | StringLeq(x, y) && StringLeq(y, x) ensures x == y { StringAntisymmetric(x, y); }
    forall x, y, z | StringLeq(x, y) && StringLeq(y, z) ensures StringLeq(x, z) { StringTransitive(x, y, z); }
  }

  predicate NatLeq(a: nat, b: nat) { a <= b }

  ghost predicate Sorted<T(!new)>(leq: (T, T) -> bool, s: seq<T>) {
    forall i, j :: 0 <= i < j < |s| ==> leq(s[i], s[j])
  }

  function Insert<T(!new)>(leq: (T, T) -> bool, x: T, s: seq<T>): (r: seq<T>)
    ensures multiset(r) == multiset(s) + multiset{x}
  {
    if s == [] then [x]
    else if leq(x, s[0]) then [x] + s
    else
      assert s == [s[0]] + s[1..];
      [s[0]] + Insert(leq, x, s[1..])
  }

  lemma {:induction false} InsertSorted<T(!new)>(leq: (T, T) -> bool, x: T, s: seq<T>)
    requires TotalOrder(leq) && Sorted(leq, s)
    ensures Sorted(leq, Insert(leq, x, s))
  {
    if s != [] && !leq(x, s[0]) {
      var t := Insert(leq, x, s[1..]);
      InsertSorted(leq, x, s[1..]);
      forall y | y in t ensures leq(s[0], y) {
        assert y in multiset(t);
        assert y == x || y in s[1..];
      }
    }
  }

  /** What `sort.Strings`, `slices.Sort` and `slices.SortFunc` compute on elements with a total order. */
  function Sort<T(!new)>(leq: (T, T) -> bool, s: seq<T>): (r: seq<T>)
    ensures multiset(r) == multiset(s)
    ensures |r| == |s|
    ensures TotalOrder(leq) ==> Sorted(leq, r)
  {
    if s == [] then []
    else
      assert s == [s[0]] + s[1..];
      var t := Sort(leq, s[1..]);
      var r := Insert(leq, s[0], t);
      assert |multiset(r)| == |multiset(s)|;
      assert TotalOrder(leq) ==> Sorted(leq, r) by { if TotalOrder(leq) { InsertSorted(leq, s[0], t); } }
      r
  }

  lemma {:induction false} SortedUnique<T(!new)>(leq: (T, T) -> bool, a: seq<T>, b: seq<T>)
    requires TotalOrder(leq) && Sorted(leq, a) && Sorted(leq, b)
    requires multiset(a) == multiset(b)
    ensures a == b
  {
    SameElements(a, b);
    if a != [] {
      SameLeast(leq, a, b);
      assert a == [a[0]] + a[1..] && b == [b[0]] + b[1..];
      assert multiset(a[1..]) == multiset(a) - multiset{a[0]};
      assert multiset(b[1..]) == multiset(b) - multiset{b[0]};
      SortedUnique(leq, a[1..], b[1..]);
    }
  }

  lemma SameLeast<T(!new)>(leq: (T, T) -> bool, a: seq<T>, b: seq<T>)
    requires TotalOrder(leq) && Sorted(leq, a) && Sorted(leq, b)
    requires a != [] && b != [] && a[0] in b && b[0] in a
    ensures a[0] == b[0] && Sorted(leq, a[1..]) && Sorted(leq, b[1..])
  {
    assert leq(a[0], a[0]) && leq(b[0], b[0]);
  }

  /** Sorting forgets the initial arrangement and nothing else. */
  lemma SortForgetsOrder<T(!new)>(leq: (T, T) -> bool, a: seq<T>, b: seq<T>)
    requires TotalOrder(leq)
    ensures Sort(leq, a) == Sort(leq, b) <==> multiset(a) == multiset(b)
  {
    if multiset(a) == multiset(b) { SortedUnique(leq, Sort(leq, a), Sort(leq, b)); }
  }

  lemma SameElements<T>(a: seq<T>, b: seq<T>)
    requires multiset(a) == multiset(b)
    ensures |a| == |b|
    ensures forall x :: x in a <==> x in b
  {
    assert |multiset(a)| == |multiset(b)|;
    assert forall x :: x in a <==> x in multiset(a);
    assert forall x :: x in b <==> x in multiset(b);
  }

  ghost predicate Distinct<T>(s: seq<T>) {
    forall i, j :: 0 <= i < j < |s| ==> s[i] != s[j]
  }

  /** The members of a finite set, each once, in ascending order. */
  ghost function Ascending<T(!new)>(leq: (T, T) -> bool, s: set<T>): (r: seq<T>)
    ensures multiset(r) == multiset(s)
    ensures forall x :: x in r <==> x in s
    ensures |r| == |s|
    ensures TotalOrder(leq) ==> Sorted(leq, r)
    ensures Distinct(r)
  {
    if s == {} then []
    else
      var x :| x in s;
      var t := Ascending(leq, s - {x});
      var r := Insert(leq, x, t);
      assert multiset(s) == multiset(s - {x}) + multiset{x};
      assert |multiset(r)| == |r|;
      assert forall y :: y in r <==> y in multiset(r);
      assert TotalOrder(leq) ==> Sorted(leq, r) by { if TotalOrder(leq) { InsertSorted(leq, x, t); } }
      DistinctFromSet(r, s);
      r
  }

  lemma DistinctFromSet<T>(r: seq<T>, s: set<T>)
    requires multiset(r) == multiset(s)
    ensures Distinct(r)
  {
    forall i, j | 0 <= i < j < |r| ensures r[i] != r[j] {
      assert r == r[..j] + [r[j]] + r[j+1..];
      assert r[i] in multiset(r[..j]);
      assert multiset(s)[r[j]] <= 1;
    }
  }

  lemma AscendingUnique<T(!new)>(leq: (T, T) -> bool, r: seq<T>, s: set<T>)
    requires TotalOrder(leq) && Sorted(leq, r) && multiset(r) == multiset(s)
    ensures r == Ascending(leq, s)
  {
    SortedUnique(leq, r, Ascending(leq, s));
  }
}
