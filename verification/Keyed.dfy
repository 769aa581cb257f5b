/** Lists of keyed items as maps, and back. */
module Keyed {
  import opened Ordering

  function Each<A, B>(f: A -> B, xs: seq<A>): (ys: seq<B>)
    ensures |ys| == |xs| && forall i :: 0 <= i < |xs| ==> ys[i] == f(xs[i])
  {
    seq(|xs|, i requires 0 <= i < |xs| => f(xs[i]))
  }

  lemma EachConcat<A, B>(f: A -> B, a: seq<A>, b: seq<A>)
    ensures Each(f, a + b) == Each(f, a) + Each(f, b)
  {
  }

  lemma EachTail<A, B>(f: A -> B, xs: seq<A>)
    requires xs != []
    ensures Each(f, xs)[1..] == Each(f, xs[1..])
  {
  }

  ghost predicate DistinctKeys<K, T>(items: seq<T>, key: T -> K) {
    forall i, j :: 0 <= i < j < |items| ==> key(items[i]) != key(items[j])
  }

  /** The items by key; a repeated key keeps its last item. */
  function Index<K(==), T>(items: seq<T>, key: T -> K): (m: map<K, T>)
    ensures forall k :: k in m ==> key(m[k]) == k && m[k] in items
    ensures forall i :: 0 <= i < |items| ==> key(items[i]) in m
  {
    if items == [] then map[]
    else
      var front, last := items[..|items| - 1], items[|items| - 1];
      assert items == front + [last];
      Index(front, key)[key(last) := last]
  }

  lemma MapGrows<K, V>(m: map<K, V>, k: K, v: V)
    ensures |m[k := v]| == |m| + if k in m then 0 else 1
  {
    var n := m[k := v];
    assert n.Keys == m.Keys + {k} && |n| == |n.Keys| && |m| == |m.Keys|;
    if k in m { assert n.Keys == m.Keys; }
  }

  lemma MapShrinks<K, V>(m: map<K, V>, k: K)
    ensures |m - {k}| == |m| - if k in m then 1 else 0
  {
    var n := m - {k};
    assert n.Keys == m.Keys - {k} && |n| == |n.Keys| && |m| == |m.Keys|;
    if k !in m { assert n.Keys == m.Keys; }
  }

  lemma {:induction false} IndexDistinct<K, T>(items: seq<T>, key: T -> K)
    requires DistinctKeys(items, key)
    ensures |Index(items, key)| == |items|
    ensures forall i :: 0 <= i < |items| ==> Index(items, key)[key(items[i])] == items[i]
  {
    if items != [] {
      var front, last := items[..|items| - 1], items[|items| - 1];
      IndexDistinct(front, key);
      FreshKey(front, last, key);
      MapGrows(Index(front, key), key(last), last);
      assert Index(items, key) == Index(front, key)[key(last) := last];
      forall i | 0 <= i < |items| ensures Index(items, key)[key(items[i])] == items[i] {
        if i < |front| { assert front[i] == items[i]; }
      }
    }
  }

  lemma FreshKey<K, T>(front: seq<T>, last: T, key: T -> K)
    requires forall i :: 0 <= i < |front| ==> key(front[i]) != key(last)
    ensures key(last) !in Index(front, key)
  {
    assert forall x :: x in front ==> key(x) != key(last);
  }

  lemma IndexAppend<K, T>(items: seq<T>, n: nat, key: T -> K)
    requires n < |items|
    ensures Index(items[..n + 1], key) == Index(items[..n], key)[key(items[n]) := items[n]]
  {
    var next := items[..n + 1];
    assert next[..|next| - 1] == items[..n] && next[|next| - 1] == items[n];
  }

  /** The duplicate check against what has been indexed so far. */
  lemma DistinctAppend<K, T>(items: seq<T>, n: nat, key: T -> K)
    requires n < |items| && DistinctKeys(items[..n], key)
    ensures DistinctKeys(items[..n + 1], key) <==> key(items[n]) !in Index(items[..n], key)
  {
    var front, next := items[..n], items[..n + 1];
    var k := key(items[n]);
    assert next == front + [items[n]];
    if k in Index(front, key) {
      var i :| 0 <= i < n && front[i] == Index(front, key)[k];
      assert key(next[i]) == key(next[n]);
    } else {
      assert forall i :: 0 <= i < n ==> key(front[i]) != k;
    }
  }

  lemma KeyRepeats<K, T>(items: seq<T>, n: nat, key: T -> K)
    requires n < |items| && key(items[n]) in Index(items[..n], key)
    ensures !DistinctKeys(items, key)
  {
    var j :| 0 <= j < n && items[..n][j] == Index(items[..n], key)[key(items[n])];
    assert key(items[j]) == key(items[n]);
  }

  /** Which items a list holds, not how it is arranged, decides the map of a list with distinct keys. */
  lemma IndexOfPermutation<K, T>(a: seq<T>, b: seq<T>, key: T -> K)
    requires multiset(a) == multiset(b) && DistinctKeys(a, key)
    ensures DistinctKeys(b, key) && Index(a, key) == Index(b, key)
  {
    SameElements(a, b);
    forall i, j | 0 <= i < j < |b| ensures key(b[i]) != key(b[j]) {
      PermutedDistinct(a, b, key, i, j);
    }
    IndexIncluded(a, b, key);
    IndexIncluded(b, a, key);
    assert Index(a, key).Keys == Index(b, key).Keys;
  }

  lemma IndexIncluded<K, T>(a: seq<T>, b: seq<T>, key: T -> K)
    requires DistinctKeys(b, key) && forall x :: x in a ==> x in b
    ensures forall k :: k in Index(a, key) ==> k in Index(b, key) && Index(b, key)[k] == Index(a, key)[k]
  {
    IndexDistinct(b, key);
    forall k | k in Index(a, key) ensures k in Index(b, key) && Index(b, key)[k] == Index(a, key)[k] {
      var x := Index(a, key)[k];
      assert x in a;
      var j :| 0 <= j < |b| && b[j] == x;
    }
  }

  lemma PermutedDistinct<K, T>(a: seq<T>, b: seq<T>, key: T -> K, i: nat, j: nat)
    requires multiset(a) == multiset(b) && DistinctKeys(a, key) && i < j < |b|
    ensures key(b[i]) != key(b[j])
  {
    SameElements(a, b);
    assert b[i] in b && b[j] in b;
    var p :| 0 <= p < |a| && a[p] == b[i];
    var q :| 0 <= q < |a| && a[q] == b[j];
    assert p != q by { NoRepeat(a, b, key, i, j, q); }
  }

  lemma NoRepeat<K, T>(a: seq<T>, b: seq<T>, key: T -> K, i: nat, j: nat, q: nat)
    requires multiset(a) == multiset(b) && DistinctKeys(a, key) && i < j < |b| && q < |a| && a[q] == b[j]
    ensures b[i] != b[j]
  {
    assert a == a[..q] + [a[q]] + a[q + 1..];
    assert a[q] !in a[..q] && a[q] !in a[q + 1..];
    assert multiset(a)[a[q]] == 1;
    assert b == b[..j] + [b[j]] + b[j + 1..];
    assert b[i] in multiset(b[..j]);
  }

  // ---- Lists out of maps ----

  lemma IndexSnoc<K, T>(front: seq<T>, last: T, key: T -> K)
    ensures Index(front + [last], key) == Index(front, key)[key(last) := last]
  {
    assert (front + [last])[..|front|] == front;
  }

  lemma ListOne<K, T>(list: seq<T>, item: T, key: T -> K)
    requires DistinctKeys(list, key) && key(item) !in Index(list, key)
    ensures DistinctKeys(list + [item], key) && Index(list + [item], key) == Index(list, key)[key(item) := item]
  {
    IndexSnoc(list, item, key);
  }

  lemma EmptyList<K, T>(list: seq<T>, key: T -> K)
    requires list == []
    ensures DistinctKeys(list, key) && Index(list, key) == map[]
  {
  }

  lemma TakeEntry<K, V>(m: map<K, V>, todo: set<K>, key: K)
    requires key in todo && todo <= m.Keys
    ensures key !in m - todo && m - (todo - {key}) == (m - todo)[key := m[key]]
  {
  }

  /** A map's items in whatever order it yields them. */
  method ListOf<K(==), T>(m: map<K, T>, key: T -> K) returns (list: seq<T>)
    requires forall k :: k in m ==> key(m[k]) == k
    ensures DistinctKeys(list, key) && Index(list, key) == m
  {
    hide DistinctKeys;
    list := [];
    EmptyList(list, key);
    var todo := m.Keys;
    while todo != {}
      invariant todo <= m.Keys && DistinctKeys(list, key) && Index(list, key) == m - todo
      decreases |todo|
    {
      var k :| k in todo;
      TakeEntry(m, todo, k);
      ListOne(list, m[k], key);
      list := list + [m[k]];
      todo := todo - {k};
    }
    assert m - {} == m;
  }

  // ---- Arranging items by key ----

  ghost predicate KeySorted<T>(items: seq<T>, key: T -> string) {
    forall i, j :: 0 <= i < j < |items| ==> StringLeq(key(items[i]), key(items[j]))
  }

  function InsertOn<T>(x: T, s: seq<T>, key: T -> string): (r: seq<T>)
    ensures multiset(r) == multiset(s) + multiset{x}
  {
    if s == [] then [x]
    else if StringLeq(key(x), key(s[0])) then [x] + s
    else
      assert s == [s[0]] + s[1..];
      [s[0]] + InsertOn(x, s[1..], key)
  }

  lemma {:induction false} InsertOnSorted<T>(x: T, s: seq<T>, key: T -> string)
    requires KeySorted(s, key)
    ensures KeySorted(InsertOn(x, s, key), key)
  {
    StringOrderIsTotal();
    if s != [] && !StringLeq(key(x), key(s[0])) {
      var t := InsertOn(x, s[1..], key);
      InsertOnSorted(x, s[1..], key);
      forall y | y in t ensures StringLeq(key(s[0]), key(y)) {
        assert y in multiset(t);
        assert y == x || y in s[1..];
      }
    }
  }

  /** What `slices.SortFunc` computes when it compares keys. */
  function SortOn<T>(s: seq<T>, key: T -> string): (r: seq<T>)
    ensures multiset(r) == multiset(s) && KeySorted(r, key)
  {
    if s == [] then []
    else
      assert s == [s[0]] + s[1..];
      InsertOnSorted(s[0], SortOn(s[1..], key), key);
      InsertOn(s[0], SortOn(s[1..], key), key)
  }

  /** With distinct keys there is one arrangement by key. */
  lemma {:induction false} KeySortedUnique<T>(a: seq<T>, b: seq<T>, key: T -> string)
    requires DistinctKeys(a, key) && multiset(a) == multiset(b) && KeySorted(a, key) && KeySorted(b, key)
    ensures a == b
  {
    SameElements(a, b);
    if a != [] {
      SameFirst(a, b, key);
      assert a == [a[0]] + a[1..] && b == [b[0]] + b[1..];
      assert multiset(a[1..]) == multiset(a) - multiset{a[0]};
      assert multiset(b[1..]) == multiset(b) - multiset{b[0]};
      KeySortedUnique(a[1..], b[1..], key);
    }
  }

  lemma SameFirst<T>(a: seq<T>, b: seq<T>, key: T -> string)
    requires DistinctKeys(a, key) && KeySorted(a, key) && KeySorted(b, key)
    requires a != [] && b != [] && a[0] in b && b[0] in a
    ensures a[0] == b[0] && DistinctKeys(a[1..], key) && KeySorted(a[1..], key) && KeySorted(b[1..], key)
  {
    StringOrderIsTotal();
    var i :| 0 <= i < |a| && a[i] == b[0];
    var j :| 0 <= j < |b| && b[j] == a[0];
    assert StringLeq(key(a[0]), key(a[i])) && StringLeq(key(b[0]), key(b[j]));
    assert key(a[0]) == key(a[i]);
  }

  lemma SortOnForgetsOrder<T>(a: seq<T>, b: seq<T>, key: T -> string)
    requires DistinctKeys(a, key) && multiset(a) == multiset(b)
    ensures SortOn(a, key) == SortOn(b, key)
  {
    IndexOfPermutation(a, SortOn(a, key), key);
    KeySortedUnique(SortOn(a, key), SortOn(b, key), key);
  }
}
