/** The memoised depth-first dependency check, for every iteration order of the feature map. */
module DependencyGraph {
  import opened Ordering
  import opened Model

  /** Each feature's dependency keys, in declaration order. */
  type Graph = map<string, seq<string>>

  ghost predicate Closed(g: Graph) {
    forall k, i :: k in g && 0 <= i < |g[k]| ==> g[k][i] in g
  }

  ghost predicate IsPath(g: Graph, p: seq<string>) {
    && p != []
    && (forall i :: 0 <= i < |p| ==> p[i] in g)
    && (forall i :: 0 <= i < |p| - 1 ==> p[i + 1] in g[p[i]])
  }

  ghost predicate Acyclic(g: Graph) {
    forall p :: IsPath(g, p) && |p| > 1 ==> p[0] != p[|p| - 1]
  }

  /** No dependency chain has more than `max` edges. */
  ghost predicate WithinDepth(g: Graph, max: nat) {
    forall p :: IsPath(g, p) ==> |p| <= max + 1
  }

  datatype Verdict = Visited(done: set<string>) | TooDeep | Cycle

  function Visit(g: Graph, max: nat, key: string, depth: nat, visiting: set<string>, done: set<string>): (v: Verdict)
    requires Closed(g) && key in g && depth <= max + 1
    ensures v.Visited? ==> done + {key} <= v.done && (v.done - done) !! visiting && v.done <= done + g.Keys
    decreases max + 1 - depth, 0
  {
    if depth > max then TooDeep
    else if key in visiting then Cycle
    else if key in done then Visited(done)
    else
      match VisitAll(g, max, g[key], depth + 1, visiting + {key}, done)
      case Visited(d) => Visited(d + {key})
      case v => v
  }

  function VisitAll(g: Graph, max: nat, keys: seq<string>, depth: nat, visiting: set<string>, done: set<string>): (v: Verdict)
    requires Closed(g) && (forall i :: 0 <= i < |keys| ==> keys[i] in g) && depth <= max + 1
    ensures v.Visited? ==> done <= v.done && (v.done - done) !! visiting && v.done <= done + g.Keys
    ensures v.Visited? ==> forall i :: 0 <= i < |keys| ==> keys[i] in v.done
    decreases max + 1 - depth, 1 + |keys|
  {
    if keys == [] then Visited(done)
    else
      match Visit(g, max, keys[0], depth, visiting, done)
      case Visited(d) => VisitAll(g, max, keys[1..], depth, visiting, d)
      case v => v
  }

  // ---- What acceptance implies ----

  ghost function Elements(l: seq<string>): (s: set<string>) { set x | x in l }

  lemma ElementsConcat(a: seq<string>, b: seq<string>)
    ensures Elements(a + b) == Elements(a) + Elements(b)
  {
    assert forall x :: x in a + b <==> x in a || x in b;
  }

  /** A list in which every feature follows all of its dependencies. */
  ghost predicate Ordered(g: Graph, l: seq<string>) {
    && Distinct(l)
    && forall i :: 0 <= i < |l| ==> l[i] in g && forall j :: 0 <= j < |g[l[i]]| ==> g[l[i]][j] in l[..i]
  }

  lemma {:induction false} VisitExtends(
    g: Graph, max: nat, key: string, depth: nat, visiting: set<string>, done: set<string>, l: seq<string>)
    returns (l': seq<string>)
    requires Closed(g) && key in g && depth <= max + 1
    requires Ordered(g, l) && Elements(l) == done && Visit(g, max, key, depth, visiting, done).Visited?
    ensures Ordered(g, l') && Elements(l') == Visit(g, max, key, depth, visiting, done).done
    decreases max + 1 - depth, 0
  {
    if key in done {
      l' := l;
    } else {
      var inner := VisitAll(g, max, g[key], depth + 1, visiting + {key}, done);
      var m := VisitAllExtends(g, max, g[key], depth + 1, visiting + {key}, done, l);
      l' := m + [key];
      assert key !in inner.done;
      assert Elements(l') == inner.done + {key};
      forall i | 0 <= i < |l'| ensures l'[i] in g && forall j :: 0 <= j < |g[l'[i]]| ==> g[l'[i]][j] in l'[..i] {
        if i < |m| { assert l'[..i] == m[..i]; } else { assert l'[..i] == m; }
      }
    }
  }

  lemma {:induction false} VisitAllExtends(
    g: Graph, max: nat, keys: seq<string>, depth: nat, visiting: set<string>, done: set<string>, l: seq<string>)
    returns (l': seq<string>)
    requires Closed(g) && (forall i :: 0 <= i < |keys| ==> keys[i] in g) && depth <= max + 1
    requires Ordered(g, l) && Elements(l) == done && VisitAll(g, max, keys, depth, visiting, done).Visited?
    ensures Ordered(g, l') && Elements(l') == VisitAll(g, max, keys, depth, visiting, done).done
    decreases max + 1 - depth, 1 + |keys|
  {
    l' := l;
    if keys != [] {
      var d := Visit(g, max, keys[0], depth, visiting, done).done;
      var m := VisitExtends(g, max, keys[0], depth, visiting, done, l);
      l' := VisitAllExtends(g, max, keys[1..], depth, visiting, d, m);
    }
  }

  /** Along a path, positions in an ordered list strictly fall. */
  lemma {:induction false} PathFalls(g: Graph, l: seq<string>, p: seq<string>, i: nat)
    requires Ordered(g, l) && IsPath(g, p) && i < |l| && l[i] == p[0]
    ensures |p| > 1 ==> p[|p| - 1] in l[..i]
    decreases |p|
  {
    if |p| > 1 {
      var j :| 0 <= j < |g[p[0]]| && g[p[0]][j] == p[1];
      assert p[1] in l[..i];
      var k :| 0 <= k < i && l[k] == p[1];
      PathFalls(g, l, p[1..], k);
    }
  }

  lemma OrderedIsAcyclic(g: Graph, l: seq<string>)
    requires Ordered(g, l) && Elements(l) == g.Keys
    ensures Acyclic(g)
  {
    forall p | IsPath(g, p) && |p| > 1 ensures p[0] != p[|p| - 1] {
      assert p[0] in Elements(l);
      var i :| 0 <= i < |l| && l[i] == p[0];
      PathFalls(g, l, p, i);
    }
  }

  lemma AcceptanceOrders(g: Graph, max: nat, order: seq<string>) returns (l: seq<string>)
    requires Closed(g) && Elements(order) == g.Keys && VisitAll(g, max, order, 0, {}, {}).Visited?
    ensures Ordered(g, l) && Elements(l) == g.Keys
  {
    assert forall i :: 0 <= i < |order| ==> order[i] in Elements(order);
    l := VisitAllExtends(g, max, order, 0, {}, {}, []);
    forall k | k in g ensures k in Elements(l) {
      assert k in Elements(order);
      var i :| 0 <= i < |order| && order[i] == k;
    }
    assert Elements(l) <= g.Keys;
  }

  // ---- What rejection implies ----

  ghost predicate Explains(g: Graph, max: nat, v: Verdict) {
    && (v.TooDeep? ==> !WithinDepth(g, max))
    && (v.Cycle? ==> !Acyclic(g))
  }

  /** The active call stack is a path, so a rejection exhibits a long chain or a cycle. */
  lemma {:induction false} VisitExplains(
    g: Graph, max: nat, key: string, depth: nat, visiting: set<string>, done: set<string>, p: seq<string>)
    requires Closed(g) && key in g && depth <= max + 1
    requires |p| == depth && IsPath(g, p + [key]) && visiting == Elements(p)
    ensures Explains(g, max, Visit(g, max, key, depth, visiting, done))
    decreases max + 1 - depth, 0
  {
    if depth > max {
      assert |p + [key]| == max + 2;
    } else if key in visiting {
      var i :| 0 <= i < |p| && p[i] == key;
      var q := (p + [key])[i..];
      assert IsPath(g, q) && |q| > 1 && q[0] == q[|q| - 1];
    } else if key !in done {
      assert Elements(p + [key]) == visiting + {key};
      VisitAllExplains(g, max, g[key], depth + 1, visiting + {key}, done, p + [key]);
    }
  }

  lemma {:induction false} VisitAllExplains(
    g: Graph, max: nat, keys: seq<string>, depth: nat, visiting: set<string>, done: set<string>, p: seq<string>)
    requires Closed(g) && (forall i :: 0 <= i < |keys| ==> keys[i] in g) && depth <= max + 1
    requires |p| == depth && visiting == Elements(p)
    requires p != [] ==> IsPath(g, p) && forall i :: 0 <= i < |keys| ==> keys[i] in g[p[|p| - 1]]
    ensures Explains(g, max, VisitAll(g, max, keys, depth, visiting, done))
    decreases max + 1 - depth, 1 + |keys|
  {
    if keys != [] {
      VisitExplains(g, max, keys[0], depth, visiting, done, p);
      match Visit(g, max, keys[0], depth, visiting, done)
      case Visited(d) => VisitAllExplains(g, max, keys[1..], depth, visiting, d, p);
      case _ =>
    }
  }

  /**
   * For every iteration order of a closed graph: acceptance means there is no cycle, a cycle report means there
   * is one, a depth report means some chain really is too long, and so every acyclic graph whose chains all fit
   * the bound is accepted.
   */
  lemma EveryOrderIsSound(g: Graph, max: nat, order: seq<string>)
    requires Closed(g) && Elements(order) == g.Keys
    ensures forall i :: 0 <= i < |order| ==> order[i] in g
    ensures var v := VisitAll(g, max, order, 0, {}, {});
            && (v.Visited? ==> Acyclic(g))
            && (v.Cycle? ==> !Acyclic(g))
            && (v.TooDeep? ==> !WithinDepth(g, max))
            && (Acyclic(g) && WithinDepth(g, max) ==> v.Visited?)
  {
    assert forall i :: 0 <= i < |order| ==> order[i] in Elements(order);
    VisitAllExplains(g, max, order, 0, {}, {}, []);
    if VisitAll(g, max, order, 0, {}, {}).Visited? {
      var l := AcceptanceOrders(g, max, order);
      OrderedIsAcyclic(g, l);
    }
  }

  // ---- Exactly which graphs some order accepts ----

  lemma {:induction false} Repeats(p: seq<string>, s: set<string>) returns (i: nat, j: nat)
    requires |p| > |s| && forall k :: 0 <= k < |p| ==> p[k] in s
    ensures i < j < |p| && p[i] == p[j]
  {
    var last := p[|p| - 1];
    if k :| 0 <= k < |p| - 1 && p[k] == last {
      return k, |p| - 1;
    }
    i, j := Repeats(p[..|p| - 1], s - {last});
  }

  lemma LongPathCycles(g: Graph, p: seq<string>)
    requires IsPath(g, p) && |p| > |g|
    ensures !Acyclic(g)
  {
    assert |g| == |g.Keys|;
    var i, j := Repeats(p, g.Keys);
    var q := p[i..j + 1];
    assert IsPath(g, q) && q[0] == q[|q| - 1];
  }

  lemma AcyclicFits(g: Graph)
    requires Acyclic(g)
    ensures WithinDepth(g, |g|)
  {
    forall p | IsPath(g, p) ensures |p| <= |g| + 1 {
      if |p| > |g| { LongPathCycles(g, p); }
    }
  }

  /** With its dependencies finished, a feature is accepted without descending. */
  lemma FinishedNeedsAccept(g: Graph, max: nat, key: string, done: set<string>)
    requires Closed(g) && key in g && key !in done && (max >= 1 || g[key] == [])
    requires forall j :: 0 <= j < |g[key]| ==> g[key][j] in done
    ensures Visit(g, max, key, 0, {}, done) == Visited(done + {key})
  {
    assert {} + {key} == {key};
    if g[key] != [] { AllFinished(g, max, g[key], {key}, done); }
  }

  lemma OrderedNeeds(g: Graph, l: seq<string>, n: nat)
    requires Ordered(g, l) && n < |l|
    ensures l[n] in g && l[n] !in Elements(l[..n]) && Elements(l[..n + 1]) == Elements(l[..n]) + {l[n]}
    ensures forall j :: 0 <= j < |g[l[n]]| ==> g[l[n]][j] in Elements(l[..n])
  {
    assert l[..n + 1] == l[..n] + [l[n]];
    ElementsConcat(l[..n], [l[n]]);
    assert Elements([l[n]]) == {l[n]};
    assert forall i :: 0 <= i < n ==> l[i] != l[n];
  }

  /** In dependency-first order each visit meets only finished features, so depth never passes one. */
  lemma {:induction false} OrderedIsAccepted(g: Graph, max: nat, l: seq<string>, n: nat)
    requires Closed(g) && Ordered(g, l) && n <= |l| && (max >= 1 || forall k :: k in g ==> g[k] == [])
    ensures forall i :: 0 <= i < |l| ==> l[i] in g
    ensures VisitAll(g, max, l[n..], 0, {}, Elements(l[..n])) == Visited(Elements(l))
    decreases |l| - n
  {
    if n == |l| {
      assert l[..n] == l && l[n..] == [];
    } else {
      OrderedNeeds(g, l, n);
      FinishedNeedsAccept(g, max, l[n], Elements(l[..n]));
      OrderedIsAccepted(g, max, l, n + 1);
      assert l[n..][0] == l[n] && l[n..][1..] == l[n + 1..];
      hide Ordered, Visit, Elements;
    }
  }

  lemma {:induction false} AllFinished(g: Graph, max: nat, keys: seq<string>, visiting: set<string>, done: set<string>)
    requires Closed(g) && max >= 1 && visiting !! done
    requires forall i :: 0 <= i < |keys| ==> keys[i] in g && keys[i] in done
    ensures VisitAll(g, max, keys, 1, visiting, done) == Visited(done)
    decreases |keys|
  {
    if keys != [] { AllFinished(g, max, keys[1..], visiting, done); }
  }

  lemma ShallowVisit(g: Graph, key: string, done: set<string>)
    requires Closed(g) && key in g && key !in done
    ensures Visit(g, 0, key, 0, {}, done) == if g[key] == [] then Visited(done + {key}) else TooDeep
  {
    if g[key] != [] {
      assert Visit(g, 0, g[key][0], 1, {} + {key}, done) == TooDeep;
      assert VisitAll(g, 0, g[key], 1, {} + {key}, done) == TooDeep;
    }
  }

  lemma {:induction false} AcceptedEdgesNeedDepth(g: Graph, keys: seq<string>, done: set<string>)
    requires Closed(g) && (forall i :: 0 <= i < |keys| ==> keys[i] in g)
    requires forall k :: k in done && k in g ==> g[k] == []
    requires VisitAll(g, 0, keys, 0, {}, done).Visited?
    ensures forall i :: 0 <= i < |keys| ==> g[keys[i]] == []
    decreases |keys|
  {
    if keys != [] {
      var v := Visit(g, 0, keys[0], 0, {}, done);
      assert v.Visited?;
      if keys[0] !in done { ShallowVisit(g, keys[0], done); }
      assert keys[0] !in done ==> v.done == done + {keys[0]};
      AcceptedEdgesNeedDepth(g, keys[1..], v.done);
    }
  }

  ghost predicate Accepts(g: Graph, max: nat, order: seq<string>)
    requires Closed(g)
  {
    (forall i :: 0 <= i < |order| ==> order[i] in g) && VisitAll(g, max, order, 0, {}, {}).Visited?
  }

  /**
   * The depth bound is not a bound on chains: some iteration order accepts a closed graph exactly when the graph
   * is acyclic and either the bound is positive or there are no edges at all.
   */
  lemma SomeOrderAcceptsExactlyWhen(g: Graph, max: nat)
    requires Closed(g)
    ensures (exists order :: Elements(order) == g.Keys && Accepts(g, max, order))
            <==> Acyclic(g) && (max >= 1 || forall k :: k in g ==> g[k] == [])
  {
    if Acyclic(g) && (max >= 1 || forall k :: k in g ==> g[k] == []) {
      var any := Ascending(StringLeq, g.Keys);
      assert Elements(any) == g.Keys;
      AcyclicFits(g);
      EveryOrderIsSound(g, |g|, any);
      var l := AcceptanceOrders(g, |g|, any);
      OrderedIsAccepted(g, max, l, 0);
      assert l[0..] == l && Elements(l[..0]) == {};
    }
    if order :| Elements(order) == g.Keys && Accepts(g, max, order) {
      EveryOrderIsSound(g, max, order);
      if max == 0 {
        AcceptedEdgesNeedDepth(g, order, {});
        forall k | k in g ensures g[k] == [] {
          assert k in Elements(order);
        }
      }
    }
  }

  // ---- Exactly which graphs every order accepts ----

  /** A memo worth having: with a feature it holds all of the feature's dependencies. */
  ghost predicate DoneClosed(g: Graph, done: set<string>) {
    done <= g.Keys && forall k, i :: k in done && 0 <= i < |g[k]| ==> g[k][i] in done
  }

  lemma {:induction false} VisitStaysClosed(g: Graph, max: nat, key: string, depth: nat, visiting: set<string>, done: set<string>)
    requires Closed(g) && key in g && depth <= max + 1 && DoneClosed(g, done)
    ensures var v := Visit(g, max, key, depth, visiting, done); v.Visited? ==> DoneClosed(g, v.done)
    decreases max + 1 - depth, 0
  {
    if depth <= max && key !in visiting && key !in done {
      VisitAllStaysClosed(g, max, g[key], depth + 1, visiting + {key}, done);
    }
  }

  lemma {:induction false} VisitAllStaysClosed(
    g: Graph, max: nat, keys: seq<string>, depth: nat, visiting: set<string>, done: set<string>)
    requires Closed(g) && (forall i :: 0 <= i < |keys| ==> keys[i] in g) && depth <= max + 1 && DoneClosed(g, done)
    ensures var v := VisitAll(g, max, keys, depth, visiting, done); v.Visited? ==> DoneClosed(g, v.done)
    decreases max + 1 - depth, 1 + |keys|
  {
    if keys != [] {
      VisitStaysClosed(g, max, keys[0], depth, visiting, done);
      var v := Visit(g, max, keys[0], depth, visiting, done);
      if v.Visited? { VisitAllStaysClosed(g, max, keys[1..], depth, visiting, v.done); }
    }
  }

  /** A visit adds only what the feature depends on: it stays inside any closed set that holds the feature. */
  lemma {:induction false} VisitStaysIn(
    g: Graph, max: nat, key: string, depth: nat, visiting: set<string>, done: set<string>, s: set<string>)
    requires Closed(g) && key in g && depth <= max + 1 && DoneClosed(g, s) && key in s && done <= s
    ensures var v := Visit(g, max, key, depth, visiting, done); v.Visited? ==> v.done <= s
    decreases max + 1 - depth, 0
  {
    if depth <= max && key !in visiting && key !in done {
      VisitAllStaysIn(g, max, g[key], depth + 1, visiting + {key}, done, s);
    }
  }

  lemma {:induction false} VisitAllStaysIn(
    g: Graph, max: nat, keys: seq<string>, depth: nat, visiting: set<string>, done: set<string>, s: set<string>)
    requires Closed(g) && (forall i :: 0 <= i < |keys| ==> keys[i] in g && keys[i] in s) && depth <= max + 1
    requires DoneClosed(g, s) && done <= s
    ensures var v := VisitAll(g, max, keys, depth, visiting, done); v.Visited? ==> v.done <= s
    decreases max + 1 - depth, 1 + |keys|
  {
    if keys != [] {
      VisitStaysIn(g, max, keys[0], depth, visiting, done, s);
      var v := Visit(g, max, keys[0], depth, visiting, done);
      if v.Visited? { VisitAllStaysIn(g, max, keys[1..], depth, visiting, v.done, s); }
    }
  }

  /** A larger closed memo can only help. */
  ghost predicate Helps(v: Verdict, v': Verdict) { v.Visited? ==> v'.Visited? && v.done <= v'.done }

  lemma {:induction false} VisitIsMonotone(
    g: Graph, max: nat, key: string, depth: nat, visiting: set<string>, done: set<string>, more: set<string>)
    requires Closed(g) && key in g && depth <= max + 1
    requires DoneClosed(g, done) && DoneClosed(g, more) && done <= more && more !! visiting
    ensures Helps(Visit(g, max, key, depth, visiting, done), Visit(g, max, key, depth, visiting, more))
    decreases max + 1 - depth, 0
  {
    if key in more {
      VisitStaysIn(g, max, key, depth, visiting, done, more);
    } else if depth <= max && key !in visiting {
      VisitAllIsMonotone(g, max, g[key], depth + 1, visiting + {key}, done, more);
    }
  }

  lemma {:induction false} VisitAllIsMonotone(
    g: Graph, max: nat, keys: seq<string>, depth: nat, visiting: set<string>, done: set<string>, more: set<string>)
    requires Closed(g) && (forall i :: 0 <= i < |keys| ==> keys[i] in g) && depth <= max + 1
    requires DoneClosed(g, done) && DoneClosed(g, more) && done <= more && more !! visiting
    ensures Helps(VisitAll(g, max, keys, depth, visiting, done), VisitAll(g, max, keys, depth, visiting, more))
    decreases max + 1 - depth, 1 + |keys|
  {
    if keys != [] {
      VisitIsMonotone(g, max, keys[0], depth, visiting, done, more);
      var v, v' := Visit(g, max, keys[0], depth, visiting, done), Visit(g, max, keys[0], depth, visiting, more);
      if v.Visited? {
        VisitStaysClosed(g, max, keys[0], depth, visiting, done);
        VisitStaysClosed(g, max, keys[0], depth, visiting, more);
        assert v'.done !! visiting;
        VisitAllIsMonotone(g, max, keys[1..], depth, visiting, v.done, v'.done);
      }
    }
  }

  /** The feature is accepted when it is the first one visited. */
  ghost predicate AcceptedFirst(g: Graph, max: nat, key: string)
    requires Closed(g)
  {
    key in g && Visit(g, max, key, 0, {}, {}).Visited?
  }

  ghost predicate EachAcceptedFirst(g: Graph, max: nat)
    requires Closed(g)
  {
    forall k :: k in g ==> AcceptedFirst(g, max, k)
  }

  lemma {:induction false} AcceptedFirstInAnyOrder(g: Graph, max: nat, keys: seq<string>, done: set<string>)
    requires Closed(g) && (forall i :: 0 <= i < |keys| ==> keys[i] in g) && EachAcceptedFirst(g, max) && DoneClosed(g, done)
    ensures VisitAll(g, max, keys, 0, {}, done).Visited?
    decreases |keys|
  {
    if keys != [] {
      assert AcceptedFirst(g, max, keys[0]);
      VisitIsMonotone(g, max, keys[0], 0, {}, {}, done);
      VisitStaysClosed(g, max, keys[0], 0, {}, done);
      AcceptedFirstInAnyOrder(g, max, keys[1..], Visit(g, max, keys[0], 0, {}, done).done);
    }
  }

  ghost predicate EveryOrderAccepts(g: Graph, max: nat)
    requires Closed(g)
  {
    forall order :: Elements(order) == g.Keys ==> Accepts(g, max, order)
  }

  lemma HeadIsAcceptedFirst(g: Graph, max: nat, order: seq<string>)
    requires Closed(g) && order != [] && Accepts(g, max, order)
    ensures AcceptedFirst(g, max, order[0])
  {
  }

  lemma AnyFeatureCanBeFirst(g: Graph, key: string) returns (order: seq<string>)
    requires key in g
    ensures Elements(order) == g.Keys && order != [] && order[0] == key
  {
    var rest := Ascending(StringLeq, g.Keys);
    order := [key] + rest;
    ElementsConcat([key], rest);
    assert Elements(rest) == g.Keys && Elements([key]) == {key};
  }

  /**
   * The verdict does not depend on the order exactly when no feature has to be visited after another: every order
   * accepts a closed graph if and only if each feature is accepted when it is visited first.
   */
  lemma EveryOrderAcceptsExactlyWhen(g: Graph, max: nat)
    requires Closed(g)
    ensures EveryOrderAccepts(g, max) <==> EachAcceptedFirst(g, max)
  {
    if EachAcceptedFirst(g, max) {
      forall order | Elements(order) == g.Keys ensures Accepts(g, max, order) {
        assert forall i :: 0 <= i < |order| ==> order[i] in Elements(order);
        AcceptedFirstInAnyOrder(g, max, order, {});
      }
    }
    if EveryOrderAccepts(g, max) {
      forall k | k in g ensures AcceptedFirst(g, max, k) {
        var order := AnyFeatureCanBeFirst(g, k);
        HeadIsAcceptedFirst(g, max, order);
      }
    }
  }

  const CHAIN: Graph := map["a" := ["b"], "b" := ["c"], "c" := []]

  /** One graph and one bound: accepted in one order, rejected as too deep in another. */
  lemma VerdictDependsOnOrder()
    ensures Closed(CHAIN)
    ensures VisitAll(CHAIN, 1, ["c", "b", "a"], 0, {}, {}).Visited?
    ensures VisitAll(CHAIN, 1, ["a", "b", "c"], 0, {}, {}).TooDeep?
  {
    assert VisitAll(CHAIN, 1, [], 2, {"a", "b"}, {}) == Visited({});
    assert Visit(CHAIN, 1, "c", 2, {"a", "b"}, {}).TooDeep?;
    assert VisitAll(CHAIN, 1, ["c"], 2, {"a", "b"}, {}).TooDeep?;
    assert {"a"} + {"b"} == {"a", "b"};
    assert Visit(CHAIN, 1, "b", 1, {"a"}, {}).TooDeep?;
    assert VisitAll(CHAIN, 1, ["b"], 1, {"a"}, {}).TooDeep?;
    assert {} + {"a"} == {"a"};
    assert Visit(CHAIN, 1, "a", 0, {}, {}).TooDeep?;
    var l := ["c", "b", "a"];
    assert l[..0] == [] && l[..1] == ["c"] && l[..2] == ["c", "b"];
    OrderedIsAccepted(CHAIN, 1, l, 0);
    assert l[0..] == l && Elements(l[..0]) == {};
  }

  // ---- The check as it runs ----

  function DependencyKeys(ds: seq<Dependency>): (keys: seq<string>)
    ensures |keys| == |ds| && forall i :: 0 <= i < |ds| ==> keys[i] == ds[i].featureKey
  {
    seq(|ds|, i requires 0 <= i < |ds| => ds[i].featureKey)
  }

  function GraphOf(definitions: map<string, Definition>): (g: Graph)
    ensures g.Keys == definitions.Keys
    ensures forall k :: k in g ==> g[k] == DependencyKeys(definitions[k].dependencies)
  {
    map k | k in definitions :: DependencyKeys(definitions[k].dependencies)
  }

  /** Every dependency names an existing feature and one of its variants. */
  predicate Resolves(definitions: map<string, Definition>, d: Dependency) {
    d.featureKey in definitions && d.requiredVariant in definitions[d.featureKey].variants
  }

  ghost predicate AllResolve(definitions: map<string, Definition>) {
    forall k, i :: k in definitions && 0 <= i < |definitions[k].dependencies| ==> Resolves(definitions, definitions[k].dependencies[i])
  }

  lemma ResolvedIsClosed(definitions: map<string, Definition>)
    requires AllResolve(definitions)
    ensures Closed(GraphOf(definitions))
  {
    var g := GraphOf(definitions);
    forall k, i | k in g && 0 <= i < |g[k]| ensures g[k][i] in g {
      assert Resolves(definitions, definitions[k].dependencies[i]);
    }
  }

  class Visitor {
    const graph: Graph
    const max: nat
    var visiting: set<string>
    var visited: set<string>

    constructor (graph: Graph, max: nat)
      ensures this.graph == graph && this.max == max && visiting == {} && visited == {}
    {
      this.graph, this.max := graph, max;
      visiting, visited := {}, {};
    }

    /** On success the keys in progress are as before and the memo has grown by the recursive visit's answer. */
    method VisitKey(key: string, depth: nat) returns (v: Verdict)
      requires Closed(graph) && key in graph && depth <= max + 1
      modifies this
      ensures v == Visit(graph, max, key, depth, old(visiting), old(visited))
      ensures v.Visited? ==> visited == v.done && visiting == old(visiting)
      decreases max + 1 - depth
    {
      if depth > max { return TooDeep; }
      if key in visiting { return Cycle; }
      if key in visited { return Visited(visited); }
      visiting := visiting + {key};
      ghost var inside, before := visiting, visited;
      var dependencies := graph[key];
      var i := 0;
      while i < |dependencies|
        invariant 0 <= i <= |dependencies| && visiting == inside
        invariant VisitAll(graph, max, dependencies, depth + 1, inside, before)
                  == VisitAll(graph, max, dependencies[i..], depth + 1, inside, visited)
        invariant key !in visited
      {
        v := VisitKey(dependencies[i], depth + 1);
        if !v.Visited? { return; }
        i := i + 1;
      }
      visiting := visiting - {key};
      visited := visited + {key};
      v := Visited(visited);
    }
  }

  /** `None` accepts; `Unresolved` is a missing feature or variant. */
  datatype GraphError = Unresolved | DepthExceeded | CycleFound

  function ErrorOf(v: Verdict): (e: Option<GraphError>) {
    match v
    case Visited(_) => None
    case TooDeep => Some(DepthExceeded)
    case Cycle => Some(CycleFound)
  }

  /** The verdict for one iteration order of the feature map. */
  ghost function GraphVerdict(definitions: map<string, Definition>, max: nat, order: seq<string>): (e: Option<GraphError>)
    requires Elements(order) == definitions.Keys
  {
    if !AllResolve(definitions) then Some(Unresolved)
    else
      ResolvedIsClosed(definitions);
      assert forall i :: 0 <= i < |order| ==> order[i] in Elements(order);
      ErrorOf(VisitAll(GraphOf(definitions), max, order, 0, {}, {}))
  }

  method ReferencesResolve(definitions: map<string, Definition>) returns (ok: bool)
    ensures ok <==> AllResolve(definitions)
  {
    var todo := definitions.Keys;
    while todo != {}
      invariant todo <= definitions.Keys
      invariant forall k, i :: k in definitions && k !in todo && 0 <= i < |definitions[k].dependencies| ==>
                  Resolves(definitions, definitions[k].dependencies[i])
      decreases |todo|
    {
      var key :| key in todo;
      var dependencies := definitions[key].dependencies;
      for i := 0 to |dependencies|
        invariant forall j :: 0 <= j < i ==> Resolves(definitions, dependencies[j])
      {
        if dependencies[i].featureKey !in definitions { return false; }
        var target := definitions[dependencies[i].featureKey];
        if dependencies[i].requiredVariant !in target.variants { return false; }
      }
      todo := todo - {key};
    }
    return true;
  }

  /** The keys taken so far, the keys left, and the verdict on the former. */
  ghost predicate Progress(g: Graph, max: nat, order: seq<string>, todo: set<string>, v: Verdict) {
    && Closed(g) && (forall i :: 0 <= i < |order| ==> order[i] in g)
    && todo <= g.Keys && Elements(order) == g.Keys - todo
    && VisitAll(g, max, order, 0, {}, {}) == v
  }

  lemma ProgressStep(g: Graph, max: nat, order: seq<string>, todo: set<string>, v: Verdict, key: string)
    requires Progress(g, max, order, todo, v) && key in todo && v.Visited?
    ensures Progress(g, max, order + [key], todo - {key}, Visit(g, max, key, 0, {}, v.done))
  {
    VisitAllSnoc(g, max, order, key, v.done);
    ElementsConcat(order, [key]);
    assert Elements([key]) == {key};
  }

  lemma ProgressEnd(g: Graph, max: nat, order: seq<string>, todo: set<string>, v: Verdict) returns (all: seq<string>)
    requires Progress(g, max, order, todo, v) && (todo == {} || !v.Visited?)
    ensures Progress(g, max, all, {}, v)
  {
    var rest := Ascending(StringLeq, todo);
    assert Elements(rest) == todo;
    ElementsConcat(order, rest);
    VisitAllAppend(g, max, order, rest, {});
    all := order + rest;
    if todo == {} { assert all == order; }
  }

  /** The driver loop over the feature map, in whatever order the map yields its keys. */
  method VisitEveryFeature(g: Graph, max: nat) returns (v: Verdict, ghost order: seq<string>)
    requires Closed(g)
    ensures Progress(g, max, order, {}, v)
  {
    var visitor := new Visitor(g, max);
    var todo := g.Keys;
    order := [];
    v := Visited({});
    while todo != {} && v.Visited?
      invariant fresh(visitor) && visitor.graph == g && visitor.max == max
      invariant Progress(g, max, order, todo, v)
      invariant v.Visited? ==> visitor.visiting == {} && v.done == visitor.visited
      decreases |todo|
    {
      var key :| key in todo;
      ProgressStep(g, max, order, todo, v, key);
      v := visitor.VisitKey(key, 0);
      todo := todo - {key};
      order := order + [key];
    }
    order := ProgressEnd(g, max, order, todo, v);
  }

  lemma VisitAllSnoc(g: Graph, max: nat, a: seq<string>, key: string, d: set<string>)
    requires Closed(g) && (forall i :: 0 <= i < |a| ==> a[i] in g) && key in g
    requires VisitAll(g, max, a, 0, {}, {}) == Visited(d)
    ensures VisitAll(g, max, a + [key], 0, {}, {}) == Visit(g, max, key, 0, {}, d)
  {
    VisitAllAppend(g, max, a, [key], {});
    assert [key][1..] == [];
  }

  method ValidateDependencyGraph(definitions: map<string, Definition>, max: nat)
    returns (e: Option<GraphError>, ghost order: seq<string>)
    ensures Elements(order) == definitions.Keys && e == GraphVerdict(definitions, max, order)
    ensures e == None ==> AllResolve(definitions) && Acyclic(GraphOf(definitions))
    ensures AllResolve(definitions) && Acyclic(GraphOf(definitions)) && WithinDepth(GraphOf(definitions), max) ==> e == None
    ensures e == Some(Unresolved) <==> !AllResolve(definitions)
    ensures e == Some(CycleFound) ==> !Acyclic(GraphOf(definitions))
    ensures e == Some(DepthExceeded) ==> !WithinDepth(GraphOf(definitions), max)
  {
    var ok := ReferencesResolve(definitions);
    if !ok {
      order := Ascending(StringLeq, definitions.Keys);
      assert Elements(order) == definitions.Keys;
      return Some(Unresolved), order;
    }
    ResolvedIsClosed(definitions);
    var v;
    v, order := VisitEveryFeature(GraphOf(definitions), max);
    EveryOrderIsSound(GraphOf(definitions), max, order);
    e := ErrorOf(v);
  }

  lemma {:induction false} VisitAllAppend(g: Graph, max: nat, a: seq<string>, b: seq<string>, done: set<string>)
    requires Closed(g) && (forall i :: 0 <= i < |a| ==> a[i] in g) && (forall i :: 0 <= i < |b| ==> b[i] in g)
    ensures var v := VisitAll(g, max, a, 0, {}, done);
            VisitAll(g, max, a + b, 0, {}, done) == if v.Visited? then VisitAll(g, max, b, 0, {}, v.done) else v
    decreases |a|
  {
    if a == [] {
      assert a + b == b;
    } else {
      assert (a + b)[0] == a[0] && (a + b)[1..] == a[1..] + b;
      var v := Visit(g, max, a[0], 0, {}, done);
      if v.Visited? { VisitAllAppend(g, max, a[1..], b, v.done); }
    }
  }
}
