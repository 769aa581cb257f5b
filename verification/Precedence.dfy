/** Which strategy decides a feature, read off the attached groups, their ancestors and the strategy lists themselves. */
module Precedence {
  import opened Model
  import opened DependencyGraph
  import opened GroupForest
  import opened Evaluator

  // ---- Places ----

  /** Strategy `j` of the `n`-th ancestor of the `i`-th attached group, or the feature's own strategy `j`. */
  datatype Place = OfGroup(i: nat, n: nat, j: nat) | OfFeature(j: nat)

  /** Attachments in order, in each the child before its parent; the feature's own strategies come after all of them. */
  predicate Before(p: Place, q: Place) {
    match (p, q)
    case (OfGroup(_, _, _), OfFeature(_)) => true
    case (OfFeature(_), OfGroup(_, _, _)) => false
    case (OfFeature(a), OfFeature(b)) => a < b
    case (OfGroup(i, n, j), OfGroup(x, y, z)) => i < x || (i == x && (n < y || (n == y && j < z)))
  }

  /** The group a place belongs to; the empty key for the feature itself. */
  function OwnerAt(gs: Groups, d: Definition, p: Place): (g: string)
    requires p.OfGroup? ==> p.i < |d.groups|
  {
    if p.OfGroup? then Ancestor(gs, d.groups[p.i], p.n) else ""
  }

  function ListAt(gs: Groups, d: Definition, p: Place): (strategies: seq<Strategy>)
    requires p.OfGroup? ==> p.i < |d.groups|
  {
    if p.OfGroup? then StrategiesOf(gs, OwnerAt(gs, d, p)) else d.strategies
  }

  predicate Exists(gs: Groups, d: Definition, p: Place) {
    (p.OfGroup? ==> p.i < |d.groups|) && p.j < |ListAt(gs, d, p)|
  }

  function StrategyAt(gs: Groups, d: Definition, p: Place): (s: Strategy)
    requires Exists(gs, d, p)
  {
    ListAt(gs, d, p)[p.j]
  }

  /** The strategy matches or fails; one that does neither is passed over. */
  predicate Speaks(rt: Runtime, d: Definition, ctx: Context, s: Strategy) {
    var r := EvaluateStrategy(rt, s, d.key, ctx); r.StrategyFailure? || r.matched
  }

  predicate SpeaksAt(rt: Runtime, gs: Groups, d: Definition, ctx: Context, p: Place) {
    Exists(gs, d, p) && Speaks(rt, d, ctx, StrategyAt(gs, d, p))
  }

  ghost predicate SpeaksFirst(rt: Runtime, gs: Groups, d: Definition, ctx: Context, p: Place) {
    SpeaksAt(rt, gs, d, ctx, p) && forall q :: SpeaksAt(rt, gs, d, ctx, q) ==> !Before(q, p)
  }

  /** What a speaking strategy makes of the feature: an error, or its variant with the reason and name it is known by. */
  function Spoken(rt: Runtime, d: Definition, ctx: Context, owner: string, s: Strategy): (o: Outcome)
    requires Speaks(rt, d, ctx, s)
  {
    var r := EvaluateStrategy(rt, s, d.key, ctx);
    if r.StrategyFailure? then Failed(StrategyFailed)
    else
      var value := if s.variant in d.variants then d.variants[s.variant] else Untyped;
      if owner != "" then
        Selected(Selection(value, s.variant, GroupMatch, "group:" + owner + "/" + s.name, d.version, r.diagnostics))
      else
        Selected(Selection(value, s.variant, if r.reason == Unstated then TargetingMatch else r.reason, s.name, d.version, r.diagnostics))
  }

  function Defaulted(d: Definition, reason: Reason, diagnostics: seq<Diagnostic>): (o: Outcome) {
    Selected(Selection(d.default, "", reason, "", d.version, diagnostics))
  }

  // ---- One list ----

  lemma {:induction false} ListSpeaks(rt: Runtime, d: Definition, ctx: Context, owner: string, strategies: seq<Strategy>, j: nat)
    requires j < |strategies| && Speaks(rt, d, ctx, strategies[j]) && forall k :: 0 <= k < j ==> !Speaks(rt, d, ctx, strategies[k])
    ensures FirstMatch(rt, d, ctx, FromGroup(owner, strategies)) == Some(Spoken(rt, d, ctx, owner, strategies[j]))
    decreases j
  {
    hide EvaluateStrategy;
    var cs := FromGroup(owner, strategies);
    assert cs[0] == Candidate(strategies[0], owner) && cs[1..] == FromGroup(owner, strategies[1..]);
    if j == 0 {
      assert "" + strategies[0].name == strategies[0].name;
    } else {
      assert !Speaks(rt, d, ctx, strategies[0]);
      ListSpeaks(rt, d, ctx, owner, strategies[1..], j - 1);
    }
  }

  lemma {:induction false} ListIsSilent(rt: Runtime, d: Definition, ctx: Context, owner: string, strategies: seq<Strategy>)
    requires forall k :: 0 <= k < |strategies| ==> !Speaks(rt, d, ctx, strategies[k])
    ensures FirstMatch(rt, d, ctx, FromGroup(owner, strategies)) == None
  {
    hide EvaluateStrategy;
    if strategies != [] {
      var cs := FromGroup(owner, strategies);
      assert cs[0] == Candidate(strategies[0], owner) && cs[1..] == FromGroup(owner, strategies[1..]);
      ListIsSilent(rt, d, ctx, owner, strategies[1..]);
    }
  }

  // ---- One chain ----

  /** Some strategy of the `n`-th ancestor speaks, at index `j`. */
  predicate SpeaksAbove(rt: Runtime, gs: Groups, d: Definition, ctx: Context, key: string, n: nat, j: nat) {
    var strategies := StrategiesOf(gs, Ancestor(gs, key, n)); j < |strategies| && Speaks(rt, d, ctx, strategies[j])
  }

  lemma SpeaksOneUp(rt: Runtime, gs: Groups, d: Definition, ctx: Context, key: string, n: nat, j: nat)
    ensures SpeaksAbove(rt, gs, d, ctx, ParentOf(gs, key), n, j) <==> SpeaksAbove(rt, gs, d, ctx, key, n + 1, j)
  {
    AncestorStep(gs, key, n);
  }

  lemma {:induction false} ChainSpeaks(
    rt: Runtime, gs: Groups, d: Definition, ctx: Context, key: string, budget: int, n: nat, j: nat)
    requires "" !in gs && ChainFits(gs, key, budget) && SpeaksAbove(rt, gs, d, ctx, key, n, j)
    requires forall x: nat, y: nat :: SpeaksAbove(rt, gs, d, ctx, key, x, y) ==> n < x || (n == x && j <= y)
    ensures var owner := Ancestor(gs, key, n);
            FirstMatch(rt, d, ctx, ChainCandidates(gs, key, budget)) == Some(Spoken(rt, d, ctx, owner, StrategiesOf(gs, owner)[j]))
    decreases n
  {
    hide Speaks, FirstMatch, Spoken;
    RootIsSilent(rt, gs, d, ctx, n, j);
    var own, rest := FromGroup(key, StrategiesOf(gs, key)), ChainCandidates(gs, ParentOf(gs, key), budget - 1);
    FirstMatchConcat(rt, d, ctx, own, rest);
    if n == 0 {
      forall k | 0 <= k < j ensures !Speaks(rt, d, ctx, StrategiesOf(gs, key)[k]) { assert !SpeaksAbove(rt, gs, d, ctx, key, 0, k); }
      ListSpeaks(rt, d, ctx, key, StrategiesOf(gs, key), j);
    } else {
      forall k | 0 <= k < |StrategiesOf(gs, key)| ensures !Speaks(rt, d, ctx, StrategiesOf(gs, key)[k]) {
        assert !SpeaksAbove(rt, gs, d, ctx, key, 0, k);
      }
      ListIsSilent(rt, d, ctx, key, StrategiesOf(gs, key));
      SpeaksOneUp(rt, gs, d, ctx, key, n - 1, j);
      AncestorStep(gs, key, n - 1);
      forall x: nat, y: nat | SpeaksAbove(rt, gs, d, ctx, ParentOf(gs, key), x, y)
        ensures n - 1 < x || (n - 1 == x && j <= y)
      {
        SpeaksOneUp(rt, gs, d, ctx, key, x, y);
      }
      ChainSpeaks(rt, gs, d, ctx, ParentOf(gs, key), budget - 1, n - 1, j);
    }
  }

  lemma RootIsSilent(rt: Runtime, gs: Groups, d: Definition, ctx: Context, n: nat, j: nat)
    requires "" !in gs
    ensures !SpeaksAbove(rt, gs, d, ctx, "", n, j)
  {
    RootStays(gs, n);
  }

  lemma {:induction false} ChainIsSilent(rt: Runtime, gs: Groups, d: Definition, ctx: Context, key: string, budget: int)
    requires forall n: nat, j: nat :: !SpeaksAbove(rt, gs, d, ctx, key, n, j)
    ensures FirstMatch(rt, d, ctx, ChainCandidates(gs, key, budget)) == None
    decreases if budget < 0 then 0 else budget + 1
  {
    if key != "" && budget >= 0 {
      hide Speaks, FirstMatch;
      var own, rest := FromGroup(key, StrategiesOf(gs, key)), ChainCandidates(gs, ParentOf(gs, key), budget - 1);
      FirstMatchConcat(rt, d, ctx, own, rest);
      forall k | 0 <= k < |StrategiesOf(gs, key)| ensures !Speaks(rt, d, ctx, StrategiesOf(gs, key)[k]) {
        assert !SpeaksAbove(rt, gs, d, ctx, key, 0, k);
      }
      ListIsSilent(rt, d, ctx, key, StrategiesOf(gs, key));
      forall n: nat, j: nat ensures !SpeaksAbove(rt, gs, d, ctx, ParentOf(gs, key), n, j) { SpeaksOneUp(rt, gs, d, ctx, key, n, j); }
      ChainIsSilent(rt, gs, d, ctx, ParentOf(gs, key), budget - 1);
    }
  }

  // ---- All attached chains ----

  predicate SpeaksIn(rt: Runtime, gs: Groups, d: Definition, ctx: Context, keys: seq<string>, i: nat, n: nat, j: nat) {
    i < |keys| && SpeaksAbove(rt, gs, d, ctx, keys[i], n, j)
  }

  ghost predicate NotBefore(i: nat, n: nat, j: nat, x: nat, y: nat, z: nat) { !Before(OfGroup(x, y, z), OfGroup(i, n, j)) }

  lemma {:induction false} GroupsSpeak(
    rt: Runtime, gs: Groups, d: Definition, ctx: Context, keys: seq<string>, max: nat, i: nat, n: nat, j: nat)
    requires "" !in gs && (forall k :: 0 <= k < |keys| ==> ChainFits(gs, keys[k], max)) && SpeaksIn(rt, gs, d, ctx, keys, i, n, j)
    requires forall x: nat, y: nat, z: nat :: SpeaksIn(rt, gs, d, ctx, keys, x, y, z) ==> NotBefore(i, n, j, x, y, z)
    ensures var owner := Ancestor(gs, keys[i], n);
            FirstMatch(rt, d, ctx, GroupCandidates(gs, keys, max)) == Some(Spoken(rt, d, ctx, owner, StrategiesOf(gs, owner)[j]))
    decreases i
  {
    hide SpeaksAbove, FirstMatch, Spoken, ChainFits;
    FirstMatchConcat(rt, d, ctx, ChainCandidates(gs, keys[0], max), GroupCandidates(gs, keys[1..], max));
    if i == 0 {
      forall x: nat, y: nat | SpeaksAbove(rt, gs, d, ctx, keys[0], x, y) ensures n < x || (n == x && j <= y) {
        assert SpeaksIn(rt, gs, d, ctx, keys, 0, x, y);
        assert NotBefore(i, n, j, 0, x, y);
      }
      ChainSpeaks(rt, gs, d, ctx, keys[0], max, n, j);
    } else {
      forall x: nat, y: nat ensures !SpeaksAbove(rt, gs, d, ctx, keys[0], x, y) {
        assert !NotBefore(i, n, j, 0, x, y);
        assert !SpeaksIn(rt, gs, d, ctx, keys, 0, x, y);
      }
      ChainIsSilent(rt, gs, d, ctx, keys[0], max);
      forall x: nat, y: nat, z: nat | SpeaksIn(rt, gs, d, ctx, keys[1..], x, y, z) ensures NotBefore(i - 1, n, j, x, y, z) {
        assert SpeaksIn(rt, gs, d, ctx, keys, x + 1, y, z);
        assert NotBefore(i, n, j, x + 1, y, z);
      }
      assert keys[1..][i - 1] == keys[i];
      GroupsSpeak(rt, gs, d, ctx, keys[1..], max, i - 1, n, j);
    }
  }

  lemma {:induction false} GroupsAreSilent(rt: Runtime, gs: Groups, d: Definition, ctx: Context, keys: seq<string>, max: nat)
    requires forall i: nat, n: nat, j: nat :: !SpeaksIn(rt, gs, d, ctx, keys, i, n, j)
    ensures FirstMatch(rt, d, ctx, GroupCandidates(gs, keys, max)) == None
  {
    if keys != [] {
      hide SpeaksAbove, FirstMatch;
      FirstMatchConcat(rt, d, ctx, ChainCandidates(gs, keys[0], max), GroupCandidates(gs, keys[1..], max));
      forall n: nat, j: nat ensures !SpeaksAbove(rt, gs, d, ctx, keys[0], n, j) { assert !SpeaksIn(rt, gs, d, ctx, keys, 0, n, j); }
      ChainIsSilent(rt, gs, d, ctx, keys[0], max);
      forall i: nat, n: nat, j: nat ensures !SpeaksIn(rt, gs, d, ctx, keys[1..], i, n, j) {
        assert !SpeaksIn(rt, gs, d, ctx, keys, i + 1, n, j);
      }
      GroupsAreSilent(rt, gs, d, ctx, keys[1..], max);
    }
  }

  // ---- One feature ----

  ghost predicate Attachable(env: Env, s: Snapshot, d: Definition) {
    "" !in s.groups && Forest(s.groups, env.limits.maxGroupDepth) && forall i :: 0 <= i < |d.groups| ==> d.groups[i] in s.groups
  }

  lemma GroupPlace(rt: Runtime, gs: Groups, d: Definition, ctx: Context, i: nat, n: nat, j: nat)
    ensures SpeaksAt(rt, gs, d, ctx, OfGroup(i, n, j)) <==> SpeaksIn(rt, gs, d, ctx, d.groups, i, n, j)
  {
    hide Speaks, Ancestor;
  }

  lemma OwnPlace(rt: Runtime, gs: Groups, d: Definition, ctx: Context, j: nat)
    ensures SpeaksAt(rt, gs, d, ctx, OfFeature(j)) <==> j < |d.strategies| && Speaks(rt, d, ctx, d.strategies[j])
  {
    hide Speaks;
  }

  lemma GroupDecides(env: Env, s: Snapshot, d: Definition, ctx: Context, i: nat, n: nat, j: nat)
    requires Attachable(env, s, d) && SpeaksFirst(env.runtime, s.groups, d, ctx, OfGroup(i, n, j))
    ensures var owner := Ancestor(s.groups, d.groups[i], n);
            Decide(env, s, d, ctx) == Spoken(env.runtime, d, ctx, owner, StrategiesOf(s.groups, owner)[j])
  {
    hide SpeaksAt, SpeaksIn, FirstMatch, Spoken, ChainFits;
    var rt, gs, max := env.runtime, s.groups, env.limits.maxGroupDepth;
    GroupPlace(rt, gs, d, ctx, i, n, j);
    forall x: nat, y: nat, z: nat | SpeaksIn(rt, gs, d, ctx, d.groups, x, y, z) ensures NotBefore(i, n, j, x, y, z) {
      GroupPlace(rt, gs, d, ctx, x, y, z);
      assert SpeaksAt(rt, gs, d, ctx, OfGroup(x, y, z));
    }
    GroupsSpeak(rt, gs, d, ctx, d.groups, max, i, n, j);
    FirstMatchConcat(rt, d, ctx, GroupCandidates(gs, d.groups, max), FromGroup("", d.strategies));
  }

  lemma NoGroupSpeaks(env: Env, s: Snapshot, d: Definition, ctx: Context)
    requires forall i: nat, n: nat, j: nat :: !SpeaksAt(env.runtime, s.groups, d, ctx, OfGroup(i, n, j))
    ensures Decide(env, s, d, ctx)
            == var m := FirstMatch(env.runtime, d, ctx, FromGroup("", d.strategies));
               if m == None then Defaulted(d, Default, []) else m.value
  {
    hide SpeaksAt, SpeaksIn, FirstMatch;
    var rt, gs, max := env.runtime, s.groups, env.limits.maxGroupDepth;
    forall i: nat, n: nat, j: nat ensures !SpeaksIn(rt, gs, d, ctx, d.groups, i, n, j) {
      GroupPlace(rt, gs, d, ctx, i, n, j);
      assert !SpeaksAt(rt, gs, d, ctx, OfGroup(i, n, j));
    }
    GroupsAreSilent(rt, gs, d, ctx, d.groups, max);
    FirstMatchConcat(rt, d, ctx, GroupCandidates(gs, d.groups, max), FromGroup("", d.strategies));
  }

  lemma FeatureDecides(env: Env, s: Snapshot, d: Definition, ctx: Context, j: nat)
    requires SpeaksFirst(env.runtime, s.groups, d, ctx, OfFeature(j))
    ensures Decide(env, s, d, ctx) == Spoken(env.runtime, d, ctx, "", d.strategies[j])
  {
    hide SpeaksAt, FirstMatch, Spoken, Speaks;
    var rt, gs := env.runtime, s.groups;
    forall x: nat, y: nat, z: nat ensures !SpeaksAt(rt, gs, d, ctx, OfGroup(x, y, z)) {
      assert Before(OfGroup(x, y, z), OfFeature(j));
    }
    NoGroupSpeaks(env, s, d, ctx);
    OwnPlace(rt, gs, d, ctx, j);
    forall k | 0 <= k < j ensures !Speaks(rt, d, ctx, d.strategies[k]) {
      OwnPlace(rt, gs, d, ctx, k);
      assert Before(OfFeature(k), OfFeature(j));
    }
    ListSpeaks(rt, d, ctx, "", d.strategies, j);
  }

  lemma NobodyDecides(env: Env, s: Snapshot, d: Definition, ctx: Context)
    requires forall p :: !SpeaksAt(env.runtime, s.groups, d, ctx, p)
    ensures Decide(env, s, d, ctx) == Defaulted(d, Default, [])
  {
    hide SpeaksAt, FirstMatch, Speaks;
    NoGroupSpeaks(env, s, d, ctx);
    forall k | 0 <= k < |d.strategies| ensures !Speaks(env.runtime, d, ctx, d.strategies[k]) {
      OwnPlace(env.runtime, s.groups, d, ctx, k);
    }
    ListIsSilent(env.runtime, d, ctx, "", d.strategies);
  }

  // ---- Who speaks first ----

  /** Whenever anybody speaks, somebody speaks first. */
  lemma {:induction false} SomebodySpeaksFirst(rt: Runtime, gs: Groups, d: Definition, ctx: Context, p: Place) returns (first: Place)
    requires SpeaksAt(rt, gs, d, ctx, p)
    ensures SpeaksFirst(rt, gs, d, ctx, first)
    decreases p.OfFeature?, if p.OfGroup? then p.i else 0, if p.OfGroup? then p.n else 0, p.j
  {
    hide SpeaksAt;
    if q :| SpeaksAt(rt, gs, d, ctx, q) && Before(q, p) {
      first := SomebodySpeaksFirst(rt, gs, d, ctx, q);
    } else {
      first := p;
    }
  }

  /** One of the feature's own strategies decides exactly when it speaks and nothing in any chain, nor an earlier one, does. */
  lemma OwnSpeaksFirstExactlyWhen(rt: Runtime, gs: Groups, d: Definition, ctx: Context, j: nat)
    ensures SpeaksFirst(rt, gs, d, ctx, OfFeature(j))
            <==> && j < |d.strategies| && Speaks(rt, d, ctx, d.strategies[j])
                 && (forall k :: 0 <= k < j ==> !Speaks(rt, d, ctx, d.strategies[k]))
                 && (forall i: nat, n: nat, x: nat :: !SpeaksIn(rt, gs, d, ctx, d.groups, i, n, x))
  {
    hide Speaks, SpeaksAt, SpeaksIn;
    forall k: nat ensures SpeaksAt(rt, gs, d, ctx, OfFeature(k)) <==> k < |d.strategies| && Speaks(rt, d, ctx, d.strategies[k]) {
      OwnPlace(rt, gs, d, ctx, k);
    }
    forall i: nat, n: nat, x: nat
      ensures SpeaksAt(rt, gs, d, ctx, OfGroup(i, n, x)) <==> SpeaksIn(rt, gs, d, ctx, d.groups, i, n, x)
    {
      GroupPlace(rt, gs, d, ctx, i, n, x);
    }
    if SpeaksFirst(rt, gs, d, ctx, OfFeature(j)) {
      forall k | 0 <= k < j ensures !Speaks(rt, d, ctx, d.strategies[k]) {
        assert Before(OfFeature(k), OfFeature(j));
      }
      forall i: nat, n: nat, x: nat ensures !SpeaksIn(rt, gs, d, ctx, d.groups, i, n, x) {
        assert Before(OfGroup(i, n, x), OfFeature(j));
      }
    }
  }

  /** A group's strategy that speaks first does so whatever strategies the feature itself has. */
  lemma GroupsIgnoreOwnStrategies(rt: Runtime, gs: Groups, d: Definition, own: seq<Strategy>, ctx: Context, i: nat, n: nat, j: nat)
    requires SpeaksFirst(rt, gs, d, ctx, OfGroup(i, n, j))
    ensures SpeaksFirst(rt, gs, d.(strategies := own), ctx, OfGroup(i, n, j))
    ensures var owner := Ancestor(gs, d.groups[i], n);
            && Speaks(rt, d.(strategies := own), ctx, StrategiesOf(gs, owner)[j])
            && Spoken(rt, d.(strategies := own), ctx, owner, StrategiesOf(gs, owner)[j])
               == Spoken(rt, d, ctx, owner, StrategiesOf(gs, owner)[j])
  {
    hide EvaluateStrategy, Ancestor;
    var e, p := d.(strategies := own), OfGroup(i, n, j);
    assert SpeaksAt(rt, gs, d, ctx, p);
    forall q | SpeaksAt(rt, gs, e, ctx, q) ensures !Before(q, p) {
      if q.OfGroup? { assert SpeaksAt(rt, gs, d, ctx, q); }
    }
  }

  // ---- Reading an answer ----

  /** What speaks first decides; where nothing speaks the default does. */
  ghost predicate DecidedBy(env: Env, s: Snapshot, d: Definition, ctx: Context, o: Outcome) {
    var rt, gs := env.runtime, s.groups;
    && (forall p :: SpeaksFirst(rt, gs, d, ctx, p) ==> o == Spoken(rt, d, ctx, OwnerAt(gs, d, p), StrategyAt(gs, d, p)))
    && ((forall p :: !SpeaksAt(rt, gs, d, ctx, p)) ==> o == Defaulted(d, Default, []))
  }

  lemma DecisionIsDecided(env: Env, s: Snapshot, d: Definition, ctx: Context)
    requires Attachable(env, s, d)
    ensures DecidedBy(env, s, d, ctx, Decide(env, s, d, ctx))
  {
    hide Speaks, Spoken, Decide, Ancestor, ChainFits;
    forall p | SpeaksFirst(env.runtime, s.groups, d, ctx, p)
      ensures Decide(env, s, d, ctx) == Spoken(env.runtime, d, ctx, OwnerAt(s.groups, d, p), StrategyAt(s.groups, d, p))
    {
      match p
      case OfGroup(i, n, j) => GroupDecides(env, s, d, ctx, i, n, j);
      case OfFeature(j) => FeatureDecides(env, s, d, ctx, j);
    }
    if forall p :: !SpeaksAt(env.runtime, s.groups, d, ctx, p) { NobodyDecides(env, s, d, ctx); }
  }

  /** The rule leaves no freedom: at most one outcome obeys it. */
  lemma DecisionIsDetermined(env: Env, s: Snapshot, d: Definition, ctx: Context, a: Outcome, b: Outcome)
    requires DecidedBy(env, s, d, ctx, a) && DecidedBy(env, s, d, ctx, b)
    ensures a == b
  {
    hide Speaks, Spoken, Ancestor;
    if p :| SpeaksAt(env.runtime, s.groups, d, ctx, p) {
      var first := SomebodySpeaksFirst(env.runtime, s.groups, d, ctx, p);
    }
  }

  /** Dependency `i` is the first that does not select its required variant one level further down. */
  ghost predicate BreaksFirst(env: Env, s: Snapshot, key: string, i: nat, ctx: Context, budget: int)
    requires AllResolve(s.definitions) && key in s.definitions
  {
    && i < |s.definitions[key].dependencies| && !MetAt(env, s, key, i, ctx, budget)
    && forall k :: 0 <= k < i ==> MetAt(env, s, key, k, ctx, budget)
  }

  /** A dependency that is not met passes its error on, or leaves the default. */
  ghost function WithoutDependency(env: Env, s: Snapshot, key: string, i: nat, ctx: Context, budget: int): (o: Outcome)
    requires AllResolve(s.definitions) && key in s.definitions && i < |s.definitions[key].dependencies|
  {
    assert Resolves(s.definitions, s.definitions[key].dependencies[i]);
    var r := Denote(env, s, s.definitions[key].dependencies[i].featureKey, ctx, budget - 1);
    if r.Failed? then r else Defaulted(s.definitions[key], DependencyFailed, UNMET)
  }

  /** One feature's outcome, when `budget` further dependency levels may be entered. */
  ghost predicate ReadAs(env: Env, s: Snapshot, key: string, ctx: Context, budget: int, o: Outcome)
    requires AllResolve(s.definitions) && key in s.definitions
  {
    var d := s.definitions[key];
    && (budget < 0 ==> o == Failed(EvaluationTooDeep))
    && (budget >= 0 && d.lifecycle != Active ==> o == Defaulted(d, Inactive, []))
    && (budget >= 0 && d.lifecycle == Active ==>
          && (forall i :: BreaksFirst(env, s, key, i, ctx, budget) ==> o == WithoutDependency(env, s, key, i, ctx, budget))
          && (MetFrom(env, s, key, 0, ctx, budget) ==> DecidedBy(env, s, d, ctx, o)))
  }

  lemma {:induction false} DependenciesBreak(env: Env, s: Snapshot, key: string, i: nat, at: nat, ctx: Context, budget: int)
    requires AllResolve(s.definitions) && key in s.definitions && budget >= 0
    requires i <= at && BreaksFirst(env, s, key, at, ctx, budget)
    ensures match WithoutDependency(env, s, key, at, ctx, budget)
            case Failed(e) => DependenciesOf(env, s, key, i, ctx, budget) == Broken(e)
            case Selected(_) => DependenciesOf(env, s, key, i, ctx, budget) == Unmet
    decreases at - i
  {
    hide Denote;
    assert Resolves(s.definitions, s.definitions[key].dependencies[i]);
    if i < at {
      assert MetAt(env, s, key, i, ctx, budget);
      DependenciesBreak(env, s, key, i + 1, at, ctx, budget);
    }
  }

  lemma {:induction false} DependenciesHold(env: Env, s: Snapshot, key: string, i: nat, ctx: Context, budget: int)
    requires AllResolve(s.definitions) && key in s.definitions && budget >= 0
    requires i <= |s.definitions[key].dependencies| && MetFrom(env, s, key, 0, ctx, budget)
    ensures DependenciesOf(env, s, key, i, ctx, budget) == AllMet
    decreases |s.definitions[key].dependencies| - i
  {
    hide Denote;
    if i < |s.definitions[key].dependencies| {
      assert Resolves(s.definitions, s.definitions[key].dependencies[i]);
      assert MetAt(env, s, key, i, ctx, budget);
      DependenciesHold(env, s, key, i + 1, ctx, budget);
    }
  }

  lemma DenotationIsRead(env: Env, s: Snapshot, key: string, ctx: Context, budget: int)
    requires Walkable(env, s) && key in s.definitions
    ensures ReadAs(env, s, key, ctx, budget, Denote(env, s, key, ctx, budget))
  {
    hide DecidedBy, Decide, Acyclic, Forest, MetFrom, MetAt;
    if budget >= 0 && s.definitions[key].lifecycle == Active {
      forall i | BreaksFirst(env, s, key, i, ctx, budget)
        ensures Denote(env, s, key, ctx, budget) == WithoutDependency(env, s, key, i, ctx, budget)
      {
        DependenciesBreak(env, s, key, 0, i, ctx, budget);
      }
      if MetFrom(env, s, key, 0, ctx, budget) {
        DependenciesHold(env, s, key, 0, ctx, budget);
        DecisionIsDecided(env, s, s.definitions[key], ctx);
      }
    }
  }

  /**
   * Every answer of an accepted snapshot, read off the request and the snapshot: the request's checks in order; then
   * an inactive feature's default; then the first dependency that does not hold; then the strategy that speaks first,
   * in the order attachments, ancestors, own strategies; then the default.
   */
  lemma AnswersFollowPrecedence(env: Env, s: Snapshot, key: string, expected: Type, ctx: Context)
    requires Sound(env, s)
    ensures AllResolve(s.definitions)
    ensures var o := Answer(env, s, key, expected, ctx);
            if s.tenant != "" && ctx.tenant != s.tenant then o == Failed(TenantMismatch)
            else if !ValidContext(env, ctx) then o == Failed(InvalidContext)
            else if key !in s.definitions then o == Failed(FeatureNotFound)
            else if s.definitions[key].typ != expected then o == Failed(TypeMismatch)
            else ReadAs(env, s, key, ctx, env.limits.maxEvaluationDepth, o)
  {
    hide Sound, Walkable, ReadAs, ValidContext, Denote, AllResolve;
    SoundIsWalkable(env, s);
    WalkableResolves(env, s);
    if key in s.definitions { DenotationIsRead(env, s, key, ctx, env.limits.maxEvaluationDepth); }
  }

  lemma WalkableResolves(env: Env, s: Snapshot)
    requires Walkable(env, s)
    ensures AllResolve(s.definitions)
  {
  }

  // ---- What the order means ----

  /** The request is in order, the feature is active and its dependencies hold: its strategies are asked. */
  ghost predicate Asked(env: Env, s: Snapshot, key: string, expected: Type, ctx: Context)
    requires AllResolve(s.definitions)
  {
    && (s.tenant == "" || ctx.tenant == s.tenant) && ValidContext(env, ctx)
    && key in s.definitions && s.definitions[key].typ == expected && s.definitions[key].lifecycle == Active
    && MetFrom(env, s, key, 0, ctx, env.limits.maxEvaluationDepth)
  }

  /** The strategies inherited by a feature of an accepted snapshot target its variants, and the feature is its key's. */
  lemma GroupTargetIsKnown(env: Env, s: Snapshot, key: string, i: nat, n: nat, j: nat)
    requires Sound(env, s) && key in s.definitions && Exists(s.groups, s.definitions[key], OfGroup(i, n, j))
    ensures var d := s.definitions[key]; d.key == key && Ancestor(s.groups, d.groups[i], n) != ""
    ensures StrategyAt(s.groups, s.definitions[key], OfGroup(i, n, j)).variant in s.definitions[key].variants
  {
    var d := s.definitions[key];
    SoundIsWalkable(env, s);
    assert Attached(env, d, s.groups) && ChainTargets(s.groups, d.groups[i], d.variants, env.limits.maxGroupDepth);
    assert "" !in s.groups && ChainFits(s.groups, d.groups[i], env.limits.maxGroupDepth);
    hide Sound, Walkable;
    TargetsAbove(s.groups, d.groups[i], d.variants, env.limits.maxGroupDepth, n, j);
  }

  lemma {:induction false} TargetsAbove(gs: Groups, key: string, variants: map<string, Value>, budget: int, n: nat, j: nat)
    requires "" !in gs && ChainFits(gs, key, budget) && ChainTargets(gs, key, variants, budget)
    requires j < |StrategiesOf(gs, Ancestor(gs, key, n))|
    ensures StrategiesOf(gs, Ancestor(gs, key, n))[j].variant in variants && Ancestor(gs, key, n) != ""
    decreases n
  {
    if key == "" {
      RootStays(gs, n);
    } else if n > 0 {
      AncestorStep(gs, key, n - 1);
      TargetsAbove(gs, ParentOf(gs, key), variants, budget - 1, n - 1, j);
    }
  }

  lemma AskedIsDecided(env: Env, s: Snapshot, key: string, expected: Type, ctx: Context)
    requires Sound(env, s) && AllResolve(s.definitions) && Asked(env, s, key, expected, ctx)
    ensures DecidedBy(env, s, s.definitions[key], ctx, Answer(env, s, key, expected, ctx))
  {
    hide Sound, DecidedBy, Answer, MetFrom, ValidContext, BreaksFirst;
    AnswersFollowPrecedence(env, s, key, expected, ctx);
  }

  lemma GroupsVerdict(env: Env, s: Snapshot, d: Definition, ctx: Context, i: nat, n: nat, j: nat, o: Outcome)
    requires DecidedBy(env, s, d, ctx, o) && SpeaksFirst(env.runtime, s.groups, d, ctx, OfGroup(i, n, j))
    ensures i < |d.groups| && j < |StrategiesOf(s.groups, Ancestor(s.groups, d.groups[i], n))|
    ensures var owner := Ancestor(s.groups, d.groups[i], n);
            var strategy := StrategiesOf(s.groups, owner)[j];
            Speaks(env.runtime, d, ctx, strategy) && o == Spoken(env.runtime, d, ctx, owner, strategy)
  {
    hide Speaks, Spoken, Ancestor;
    assert StrategyAt(s.groups, d, OfGroup(i, n, j)) == StrategiesOf(s.groups, Ancestor(s.groups, d.groups[i], n))[j];
  }

  lemma OwnVerdict(env: Env, s: Snapshot, d: Definition, ctx: Context, j: nat, o: Outcome)
    requires DecidedBy(env, s, d, ctx, o) && SpeaksFirst(env.runtime, s.groups, d, ctx, OfFeature(j))
    ensures j < |d.strategies| && OwnAnswer(env.runtime, d, ctx, d.strategies[j], o)
  {
    hide EvaluateStrategy, Ancestor;
    assert StrategyAt(s.groups, d, OfFeature(j)) == d.strategies[j];
  }

  /**
   * An attached group's strategy, its own or an ancestor's, that matches with nothing before it speaking selects its
   * variant as a group match, whatever the feature's own strategies say; one that fails first fails the request.
   */
  lemma GroupsOverrideTheFeature(env: Env, s: Snapshot, key: string, expected: Type, ctx: Context, i: nat, n: nat, j: nat)
    requires Sound(env, s) && AllResolve(s.definitions) && Asked(env, s, key, expected, ctx)
    requires SpeaksFirst(env.runtime, s.groups, s.definitions[key], ctx, OfGroup(i, n, j))
    ensures var d := s.definitions[key];
            var owner := Ancestor(s.groups, d.groups[i], n);
            var strategy, o := StrategiesOf(s.groups, owner)[j], Answer(env, s, key, expected, ctx);
            && owner != ""
            && (EvaluateStrategy(env.runtime, strategy, key, ctx).StrategyFailure? ==> o == Failed(StrategyFailed))
            && (EvaluateStrategy(env.runtime, strategy, key, ctx).StrategyResult? ==>
                  && o.Selected? && o.selection.reason == GroupMatch && o.selection.variant == strategy.variant
                  && strategy.variant in d.variants && o.selection.value == d.variants[strategy.variant]
                  && o.selection.matched == "group:" + owner + "/" + strategy.name && o.selection.version == d.version)
  {
    hide EvaluateStrategy, Answer, MetFrom, ValidContext, Sound, Ancestor, AllResolve, DecidedBy, SpeaksFirst;
    AskedIsDecided(env, s, key, expected, ctx);
    GroupsVerdict(env, s, s.definitions[key], ctx, i, n, j, Answer(env, s, key, expected, ctx));
    GroupTargetIsKnown(env, s, key, i, n, j);
  }

  /**
   * The feature's own strategy decides exactly when nothing in any attached chain and no earlier own strategy matches
   * or fails, and it does itself.
   */
  lemma OwnStrategiesComeLast(env: Env, s: Snapshot, key: string, expected: Type, ctx: Context, j: nat)
    requires Sound(env, s) && AllResolve(s.definitions) && Asked(env, s, key, expected, ctx)
    ensures var d, rt := s.definitions[key], env.runtime;
            SpeaksFirst(rt, s.groups, d, ctx, OfFeature(j))
            <==> && j < |d.strategies| && Speaks(rt, d, ctx, d.strategies[j])
                 && (forall k :: 0 <= k < j ==> !Speaks(rt, d, ctx, d.strategies[k]))
                 && (forall i: nat, n: nat, x: nat :: !SpeaksIn(rt, s.groups, d, ctx, d.groups, i, n, x))
    ensures var d := s.definitions[key];
            SpeaksFirst(env.runtime, s.groups, d, ctx, OfFeature(j)) ==>
              OwnAnswer(env.runtime, d, ctx, d.strategies[j], Answer(env, s, key, expected, ctx))
  {
    hide EvaluateStrategy, Answer, MetFrom, ValidContext, Sound, AllResolve, DecidedBy, SpeaksFirst, OwnAnswer, SpeaksIn, Speaks;
    AskedIsDecided(env, s, key, expected, ctx);
    OwnSpeaksFirstExactlyWhen(env.runtime, s.groups, s.definitions[key], ctx, j);
    if SpeaksFirst(env.runtime, s.groups, s.definitions[key], ctx, OfFeature(j)) {
      OwnVerdict(env, s, s.definitions[key], ctx, j, Answer(env, s, key, expected, ctx));
    }
  }

  /** A match of one of the feature's own strategies: its variant, its name, and its reason or the usual one. */
  ghost predicate OwnAnswer(rt: Runtime, d: Definition, ctx: Context, strategy: Strategy, o: Outcome) {
    match EvaluateStrategy(rt, strategy, d.key, ctx)
    case StrategyFailure => o == Failed(StrategyFailed)
    case StrategyResult(_, reason, _) =>
      && o.Selected? && o.selection.variant == strategy.variant && o.selection.matched == strategy.name
      && o.selection.reason == (if reason == Unstated then TargetingMatch else reason)
  }

  // ---- Without budgets ----

  /** The same reading where nothing fails and every chain fits the bound: no budget and no dependency order is left. */
  lemma FlatReading(env: Env, s: Snapshot, key: string, ctx: Context)
    requires Sound(env, s) && Readable(env, s, ctx) && key in s.definitions
    ensures var d, o := s.definitions[key], Selected(Meaning(env, s, key, ctx));
            if d.lifecycle != Active then o == Defaulted(d, Inactive, [])
            else if forall x :: x in d.dependencies ==> SelectsRequired(env, s, x, ctx) then DecidedBy(env, s, d, ctx, o)
            else o == Defaulted(d, DependencyFailed, UNMET)
  {
    SoundIsWalkable(env, s);
    MeaningStep(env, s, key, ctx);
    hide DecidedBy, Decide, SelectsRequired, Readable;
    DecisionIsDecided(env, s, s.definitions[key], ctx);
    TameDecides(env, s, key, ctx);
  }

  lemma TameDecides(env: Env, s: Snapshot, key: string, ctx: Context)
    requires Readable(env, s, ctx) && key in s.definitions
    ensures Decide(env, s, s.definitions[key], ctx).Selected?
  {
  }
}
