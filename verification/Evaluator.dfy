/** Snapshot construction and evaluation, against a flat reading of precedence. */
module Evaluator {
  import opened Ordering
  import opened Keyed
  import opened Model
  import opened DependencyGraph
  import opened GroupForest

  datatype Snapshot = Snapshot(definitions: map<string, Definition>, groups: Groups, tenant: string)

  datatype Selection = Selection(
    value: Value, variant: string, reason: Reason, matched: string, version: nat, diagnostics: seq<Diagnostic>)

  datatype EvalError =
    | TenantMismatch | InvalidContext | FeatureNotFound | TypeMismatch
    | EvaluationTooDeep | DependencyCycle | GroupTooDeep | StrategyFailed

  datatype Outcome = Selected(selection: Selection) | Failed(error: EvalError)

  // ---- Acceptance ----

  function DefinitionKey(d: Definition): (key: string) { d.key }

  ghost predicate DefinitionsValid(env: Env, definitions: map<string, Definition>) {
    forall k :: k in definitions ==> definitions[k].key == k && ValidDefinition(env, definitions[k])
  }

  /** Acceptance of a whole tenant graph, for one iteration order of its features. */
  ghost predicate GraphAccepted(env: Env, definitions: map<string, Definition>, gs: Groups, order: seq<string>)
    requires Elements(order) == definitions.Keys
  {
    && |definitions| <= env.limits.maxFeatures
    && DefinitionsValid(env, definitions)
    && GraphVerdict(definitions, env.limits.maxEvaluationDepth, order) == None
    && GroupsAccepted(env, definitions, gs)
  }

  /** What acceptance guarantees whatever the order was. */
  ghost predicate Sound(env: Env, s: Snapshot) {
    && DefinitionsValid(env, s.definitions)
    && AllResolve(s.definitions)
    && Acyclic(GraphOf(s.definitions))
    && GroupsAccepted(env, s.definitions, s.groups)
  }

  lemma AcceptedIsSound(env: Env, definitions: map<string, Definition>, gs: Groups, tenant: string, order: seq<string>)
    requires Elements(order) == definitions.Keys && GraphAccepted(env, definitions, gs, order)
    ensures Sound(env, Snapshot(definitions, gs, tenant))
  {
    ResolvedIsClosed(definitions);
    EveryOrderIsSound(GraphOf(definitions), env.limits.maxEvaluationDepth, order);
  }

  /** Apart from the order, a sound graph within the feature limit has nothing left to fail. */
  lemma AcceptedExactlyInOrders(env: Env, definitions: map<string, Definition>, gs: Groups, order: seq<string>)
    requires Elements(order) == definitions.Keys
    requires |definitions| <= env.limits.maxFeatures && Sound(env, Snapshot(definitions, gs, ""))
    ensures Closed(GraphOf(definitions))
    ensures GraphAccepted(env, definitions, gs, order) <==> Accepts(GraphOf(definitions), env.limits.maxEvaluationDepth, order)
  {
    ResolvedIsClosed(definitions);
    EveryOrderIsSound(GraphOf(definitions), env.limits.maxEvaluationDepth, order);
  }

  ghost predicate Gathered(env: Env, definitions: seq<Definition>, n: nat, cloned: map<string, Definition>) {
    && n <= |definitions| && cloned == Index(definitions[..n], DefinitionKey) && DistinctKeys(definitions[..n], DefinitionKey)
    && forall j :: 0 <= j < n ==> ValidDefinition(env, definitions[j])
  }

  lemma GatherOne(env: Env, definitions: seq<Definition>, i: nat, cloned: map<string, Definition>)
    requires Gathered(env, definitions, i, cloned) && i < |definitions|
    ensures definitions[i].key in cloned ==> !DistinctKeys(definitions, DefinitionKey)
    ensures ValidDefinition(env, definitions[i]) && definitions[i].key !in cloned ==>
              Gathered(env, definitions, i + 1, cloned[definitions[i].key := definitions[i]])
  {
    hide ValidDefinition, DistinctKeys;
    IndexAppend(definitions, i, DefinitionKey);
    DistinctAppend(definitions, i, DefinitionKey);
    if definitions[i].key in cloned { KeyRepeats(definitions, i, DefinitionKey); }
  }

  method CollectDefinitions(env: Env, definitions: seq<Definition>) returns (r: Option<map<string, Definition>>)
    ensures r.Some? <==> |definitions| <= env.limits.maxFeatures && DistinctKeys(definitions, DefinitionKey)
                         && forall i :: 0 <= i < |definitions| ==> ValidDefinition(env, definitions[i])
    ensures r.Some? ==> r.value == Index(definitions, DefinitionKey)
  {
    if |definitions| > env.limits.maxFeatures { return None; }
    var cloned: map<string, Definition> := map[];
    for i := 0 to |definitions|
      invariant Gathered(env, definitions, i, cloned)
    {
      GatherOne(env, definitions, i, cloned);
      if !ValidDefinition(env, definitions[i]) { return None; }
      if definitions[i].key in cloned { return None; }
      cloned := cloned[definitions[i].key := definitions[i]];
    }
    assert definitions[..|definitions|] == definitions;
    return Some(cloned);
  }

  lemma ListedDefinitionsValid(env: Env, definitions: seq<Definition>)
    requires DistinctKeys(definitions, DefinitionKey)
    ensures (|definitions| <= env.limits.maxFeatures && forall i :: 0 <= i < |definitions| ==> ValidDefinition(env, definitions[i]))
            <==> (|Index(definitions, DefinitionKey)| <= env.limits.maxFeatures
                  && DefinitionsValid(env, Index(definitions, DefinitionKey)))
  {
    IndexDistinct(definitions, DefinitionKey);
  }

  /** A list of features and groups is a snapshot when its keys are distinct and its graph is accepted. */
  ghost predicate ListAccepted(env: Env, definitions: seq<Definition>, groups: seq<Group>, order: seq<string>) {
    && DistinctKeys(definitions, DefinitionKey) && DistinctKeys(groups, GroupKey)
    && Elements(order) == Index(definitions, DefinitionKey).Keys
    && GraphAccepted(env, Index(definitions, DefinitionKey), Index(groups, GroupKey), order)
  }

  ghost predicate Collectable(env: Env, definitions: seq<Definition>) {
    && DistinctKeys(definitions, DefinitionKey)
    && |Index(definitions, DefinitionKey)| <= env.limits.maxFeatures
    && DefinitionsValid(env, Index(definitions, DefinitionKey))
  }

  /** Collection, with its verdict restated about the resulting map. */
  method Collect(env: Env, definitions: seq<Definition>) returns (r: Option<map<string, Definition>>)
    ensures r.Some? <==> Collectable(env, definitions)
    ensures r.Some? ==> r.value == Index(definitions, DefinitionKey)
  {
    r := CollectDefinitions(env, definitions);
    if DistinctKeys(definitions, DefinitionKey) { ListedDefinitionsValid(env, definitions); }
  }

  method NewSnapshotWithGroups(env: Env, definitions: seq<Definition>, groups: seq<Group>)
    returns (r: Option<Snapshot>, ghost order: seq<string>)
    ensures Elements(order) == Index(definitions, DefinitionKey).Keys
    ensures r.Some? <==> ListAccepted(env, definitions, groups, order)
    ensures r.Some? ==> r.value == Snapshot(Index(definitions, DefinitionKey), Index(groups, GroupKey), "") && Sound(env, r.value)
  {
    order := Ascending(StringLeq, Index(definitions, DefinitionKey).Keys);
    assert Elements(order) == Index(definitions, DefinitionKey).Keys;
    var collected := Collect(env, definitions);
    if collected == None { return None, order; }
    var e: Option<GraphError>;
    e, order := ValidateDependencyGraph(collected.value, env.limits.maxEvaluationDepth);
    if e != None { return None, order; }
    var gs := ValidateGroups(env, collected.value, groups);
    if gs == None { return None, order; }
    AcceptedIsSound(env, collected.value, gs.value, "", order);
    r := Some(Snapshot(collected.value, gs.value, ""));
  }

  // ---- The flat reading ----

  /** A strategy in line to be tried; `group` is empty for the feature's own. */
  datatype Candidate = Candidate(strategy: Strategy, group: string)

  function FromGroup(key: string, strategies: seq<Strategy>): (cs: seq<Candidate>) {
    seq(|strategies|, i requires 0 <= i < |strategies| => Candidate(strategies[i], key))
  }

  /** One group's strategies, then its parent's, and so on to the root. */
  function ChainCandidates(gs: Groups, key: string, budget: int): (cs: seq<Candidate>)
    decreases if budget < 0 then 0 else budget + 1
  {
    if key == "" || budget < 0 then []
    else FromGroup(key, StrategiesOf(gs, key)) + ChainCandidates(gs, ParentOf(gs, key), budget - 1)
  }

  function GroupCandidates(gs: Groups, keys: seq<string>, max: nat): (cs: seq<Candidate>) {
    if keys == [] then [] else ChainCandidates(gs, keys[0], max) + GroupCandidates(gs, keys[1..], max)
  }

  /** Precedence: attached groups in order, each with its whole chain, then the feature's own strategies. */
  function Candidates(env: Env, s: Snapshot, d: Definition): (cs: seq<Candidate>) {
    GroupCandidates(s.groups, d.groups, env.limits.maxGroupDepth) + FromGroup("", d.strategies)
  }

  function DefaultSelection(d: Definition, reason: Reason, diagnostics: seq<Diagnostic>): (r: Selection) {
    Selection(d.default, "", reason, "", d.version, diagnostics)
  }

  /** What trying one candidate does: nothing, a selection, or a failure. */
  function Try(rt: Runtime, d: Definition, ctx: Context, c: Candidate): (r: Option<Outcome>) {
    var result := EvaluateStrategy(rt, c.strategy, d.key, ctx);
    if result.StrategyFailure? then Some(Failed(StrategyFailed))
    else if !result.matched then None
    else
      var reason := if c.group != "" then GroupMatch else if result.reason == Unstated then TargetingMatch else result.reason;
      var prefix := if c.group != "" then "group:" + c.group + "/" else "";
      var value := if c.strategy.variant in d.variants then d.variants[c.strategy.variant] else Untyped;
      Some(Selected(Selection(value, c.strategy.variant, reason, prefix + c.strategy.name, d.version, result.diagnostics)))
  }

  function FirstMatch(rt: Runtime, d: Definition, ctx: Context, cs: seq<Candidate>): (r: Option<Outcome>) {
    if cs == [] then None
    else
      var r := Try(rt, d, ctx, cs[0]);
      if r == None then FirstMatch(rt, d, ctx, cs[1..]) else r
  }

  /** The first candidate that matches or fails, or the default. */
  function Decide(env: Env, s: Snapshot, d: Definition, ctx: Context): (r: Outcome) {
    var m := FirstMatch(env.runtime, d, ctx, Candidates(env, s, d));
    if m == None then Selected(DefaultSelection(d, Default, [])) else m.value
  }

  datatype Dependencies = AllMet | Unmet | Broken(error: EvalError)

  const UNMET := [Diagnostic("dependency_failed", "required feature variant was not selected")]

  /** The meaning of one feature when `budget` further dependency levels may be entered. */
  ghost function Denote(env: Env, s: Snapshot, key: string, ctx: Context, budget: int): (r: Outcome)
    requires AllResolve(s.definitions) && key in s.definitions
    decreases if budget < 0 then 0 else budget + 1, 1, 0
  {
    if budget < 0 then Failed(EvaluationTooDeep)
    else
      var d := s.definitions[key];
      if d.lifecycle != Active then Selected(DefaultSelection(d, Inactive, []))
      else
        match DependenciesOf(env, s, key, 0, ctx, budget)
        case Broken(e) => Failed(e)
        case Unmet => Selected(DefaultSelection(d, DependencyFailed, UNMET))
        case AllMet => Decide(env, s, d, ctx)
  }

  ghost function DependenciesOf(env: Env, s: Snapshot, key: string, i: nat, ctx: Context, budget: int): (r: Dependencies)
    requires AllResolve(s.definitions) && key in s.definitions && i <= |s.definitions[key].dependencies| && budget >= 0
    decreases budget + 1, 0, |s.definitions[key].dependencies| - i
  {
    var ds := s.definitions[key].dependencies;
    if i == |ds| then AllMet
    else
      assert Resolves(s.definitions, ds[i]);
      match Denote(env, s, ds[i].featureKey, ctx, budget - 1)
      case Failed(e) => Broken(e)
      case Selected(r) => if r.variant != ds[i].requiredVariant then Unmet else DependenciesOf(env, s, key, i + 1, ctx, budget)
  }

  // ---- Groups as they are evaluated ----

  ghost predicate Silent(env: Env, s: Snapshot, d: Definition, ctx: Context, group: string) {
    FirstMatch(env.runtime, d, ctx, ChainCandidates(s.groups, group, env.limits.maxGroupDepth)) == None
  }

  lemma {:induction false} FirstMatchConcat(rt: Runtime, d: Definition, ctx: Context, a: seq<Candidate>, b: seq<Candidate>)
    ensures FirstMatch(rt, d, ctx, a + b)
            == var r := FirstMatch(rt, d, ctx, a); if r == None then FirstMatch(rt, d, ctx, b) else r
  {
    if a == [] {
      assert a + b == b;
    } else {
      assert (a + b)[0] == a[0] && (a + b)[1..] == a[1..] + b;
      FirstMatchConcat(rt, d, ctx, a[1..], b);
    }
  }

  /** On a chain that fits, the budget left over does not matter. */
  lemma {:induction false} ChainIgnoresBudget(gs: Groups, key: string, a: int, b: int)
    requires ChainFits(gs, key, a) && ChainFits(gs, key, b)
    ensures ChainCandidates(gs, key, a) == ChainCandidates(gs, key, b)
    decreases if a < 0 then 0 else a + 1
  {
    if key != "" { ChainIgnoresBudget(gs, ParentOf(gs, key), a - 1, b - 1); }
  }

  method TryAll(env: Env, d: Definition, group: string, strategies: seq<Strategy>, ctx: Context) returns (r: Option<Outcome>)
    ensures r == FirstMatch(env.runtime, d, ctx, FromGroup(group, strategies))
  {
    ghost var cs := FromGroup(group, strategies);
    for i := 0 to |strategies|
      invariant FirstMatch(env.runtime, d, ctx, cs) == FirstMatch(env.runtime, d, ctx, cs[i..])
    {
      r := Try(env.runtime, d, ctx, Candidate(strategies[i], group));
      if r != None { return; }
    }
    r := None;
  }

  /**
   * One attached group and its ancestors, skipping groups already visited for this feature. Provided visited
   * ancestors are silent, the answer is the whole chain's first match, and everything newly visited is silent too.
   */
  method EvaluateGroup(env: Env, s: Snapshot, d: Definition, key: string, ctx: Context, visited: set<string>, depth: nat)
    returns (r: Option<Outcome>, visited': set<string>)
    ensures "" !in s.groups && ChainFits(s.groups, key, env.limits.maxGroupDepth - depth) && key != ""
            && (forall n: nat :: Ancestor(s.groups, key, n) in visited ==> Silent(env, s, d, ctx, Ancestor(s.groups, key, n)))
            ==> && r == FirstMatch(env.runtime, d, ctx, ChainCandidates(s.groups, key, env.limits.maxGroupDepth - depth))
                && (r == None ==> forall v :: v in visited' && v !in visited ==> Silent(env, s, d, ctx, v))
    decreases if depth > env.limits.maxGroupDepth then 0 else env.limits.maxGroupDepth - depth + 1
  {
    if depth > env.limits.maxGroupDepth { return Some(Failed(GroupTooDeep)), visited; }
    ghost var max := env.limits.maxGroupDepth;
    ghost var fits := "" !in s.groups && ChainFits(s.groups, key, max - depth) && key != ""
      && (forall n: nat :: Ancestor(s.groups, key, n) in visited ==> Silent(env, s, d, ctx, Ancestor(s.groups, key, n)));
    if fits {
      ChainFitsMore(s.groups, key, max - depth, max);
      ChainIgnoresBudget(s.groups, key, max - depth, max);
    }
    if key in visited {
      assert Ancestor(s.groups, key, 0) == key;
      return None, visited;
    }
    visited' := visited + {key};
    var own := StrategiesOf(s.groups, key);
    r := TryAll(env, d, key, own, ctx);
    var parent := ParentOf(s.groups, key);
    if fits {
      FirstMatchConcat(env.runtime, d, ctx, FromGroup(key, own), ChainCandidates(s.groups, parent, max - depth - 1));
    }
    if r != None { return; }
    if parent != "" {
      if fits { ParentPremise(env, s, d, key, ctx, visited); }
      r, visited' := EvaluateGroup(env, s, d, parent, ctx, visited', depth + 1);
    }
  }

  /** A group is not among its own ancestors, so marking it visited leaves the premise true for its parent. */
  lemma ParentPremise(env: Env, s: Snapshot, d: Definition, key: string, ctx: Context, visited: set<string>)
    requires "" !in s.groups && ChainFits(s.groups, key, env.limits.maxGroupDepth) && key != ""
    requires forall n: nat :: Ancestor(s.groups, key, n) in visited ==> Silent(env, s, d, ctx, Ancestor(s.groups, key, n))
    ensures var p := ParentOf(s.groups, key);
            forall n: nat :: Ancestor(s.groups, p, n) in visited + {key} ==> Silent(env, s, d, ctx, Ancestor(s.groups, p, n))
  {
    var p := ParentOf(s.groups, key);
    forall n: nat ensures Ancestor(s.groups, p, n) == Ancestor(s.groups, key, n + 1) && Ancestor(s.groups, p, n) != key {
      AncestorStep(s.groups, key, n);
      NotOwnAncestor(s.groups, key, n + 1, env.limits.maxGroupDepth);
    }
  }

  lemma NotOwnAncestor(gs: Groups, key: string, n: nat, max: nat)
    requires "" !in gs && ChainFits(gs, key, max) && key != "" && n > 0
    ensures Ancestor(gs, key, n) != key
  {
    if Ancestor(gs, key, n) == key { CycleNeverFits(gs, key, n, max); }
  }

  /** The attached groups in order, sharing one visited set: deduplication never changes the answer. */
  method EvaluateGroups(env: Env, s: Snapshot, d: Definition, ctx: Context) returns (r: Option<Outcome>)
    ensures "" !in s.groups && (forall i :: 0 <= i < |d.groups| ==> d.groups[i] in s.groups)
            && Forest(s.groups, env.limits.maxGroupDepth)
            ==> r == FirstMatch(env.runtime, d, ctx, GroupCandidates(s.groups, d.groups, env.limits.maxGroupDepth))
  {
    ghost var fits := "" !in s.groups && (forall i :: 0 <= i < |d.groups| ==> d.groups[i] in s.groups)
                      && Forest(s.groups, env.limits.maxGroupDepth);
    var visited: set<string> := {};
    for i := 0 to |d.groups|
      invariant fits ==> forall v :: v in visited ==> Silent(env, s, d, ctx, v)
      invariant fits ==> FirstMatch(env.runtime, d, ctx, GroupCandidates(s.groups, d.groups, env.limits.maxGroupDepth))
                         == FirstMatch(env.runtime, d, ctx, GroupCandidates(s.groups, d.groups[i..], env.limits.maxGroupDepth))
    {
      r, visited := EvaluateGroup(env, s, d, d.groups[i], ctx, visited, 0);
      if fits {
        FirstMatchConcat(env.runtime, d, ctx, ChainCandidates(s.groups, d.groups[i], env.limits.maxGroupDepth),
                         GroupCandidates(s.groups, d.groups[i..][1..], env.limits.maxGroupDepth));
        assert d.groups[i..][1..] == d.groups[i + 1..];
      }
      if r != None { return; }
    }
    r := None;
  }

  // ---- Features as they are evaluated ----

  /** The keys in progress are the path from the requested feature down to this one. */
  ghost predicate Descending(s: Snapshot, path: seq<string>, key: string, visiting: set<string>, depth: nat) {
    |path| == depth && visiting == Elements(path) && IsPath(GraphOf(s.definitions), path + [key])
  }

  /** The part of soundness the walk itself relies on. */
  ghost predicate Walkable(env: Env, s: Snapshot) {
    && AllResolve(s.definitions) && Acyclic(GraphOf(s.definitions))
    && "" !in s.groups && Forest(s.groups, env.limits.maxGroupDepth)
    && forall k, i :: k in s.definitions && 0 <= i < |s.definitions[k].groups| ==> s.definitions[k].groups[i] in s.groups
  }

  lemma SoundIsWalkable(env: Env, s: Snapshot)
    requires Sound(env, s)
    ensures Walkable(env, s)
  {
    assert forall k :: k in s.definitions ==> Attached(env, s.definitions[k], s.groups);
    assert forall k :: k in s.groups ==> ValidKey(env.limits, s.groups[k].key);
  }

  method EvaluateStrategies(env: Env, s: Snapshot, d: Definition, ctx: Context) returns (r: Outcome)
    ensures "" !in s.groups && (forall i :: 0 <= i < |d.groups| ==> d.groups[i] in s.groups)
            && Forest(s.groups, env.limits.maxGroupDepth)
            ==> r == Decide(env, s, d, ctx)
  {
    FirstMatchConcat(env.runtime, d, ctx, GroupCandidates(s.groups, d.groups, env.limits.maxGroupDepth), FromGroup("", d.strategies));
    var m := EvaluateGroups(env, s, d, ctx);
    if m == None { m := TryAll(env, d, "", d.strategies, ctx); }
    r := if m == None then Selected(DefaultSelection(d, Default, [])) else m.value;
  }

  method EvaluateKey(env: Env, s: Snapshot, key: string, ctx: Context, visiting: set<string>, depth: nat, ghost path: seq<string>)
    returns (r: Outcome)
    ensures Walkable(env, s) && Descending(s, path, key, visiting, depth) ==>
              key in s.definitions && r == Denote(env, s, key, ctx, env.limits.maxEvaluationDepth - depth)
    decreases if depth > env.limits.maxEvaluationDepth then 0 else env.limits.maxEvaluationDepth - depth + 1, 1
  {
    ghost var good := Walkable(env, s) && Descending(s, path, key, visiting, depth);
    if good { OnPath(s, path, key, visiting, depth); }
    if depth > env.limits.maxEvaluationDepth { return Failed(EvaluationTooDeep); }
    if key in visiting { return Failed(DependencyCycle); }
    if key !in s.definitions { return Failed(FeatureNotFound); }
    var d := s.definitions[key];
    if d.lifecycle != Active { return Selected(DefaultSelection(d, Inactive, [])); }
    var met := EvaluateDependencies(env, s, key, ctx, visiting, depth, path);
    match met
    case Broken(e) => r := Failed(e);
    case Unmet => r := Selected(DefaultSelection(d, DependencyFailed, UNMET));
    case AllMet => r := EvaluateStrategies(env, s, d, ctx);
  }

  /** The dependency loop: the first failure or unselected variant ends it. */
  method EvaluateDependencies(
    env: Env, s: Snapshot, key: string, ctx: Context, visiting: set<string>, depth: nat, ghost path: seq<string>)
    returns (met: Dependencies)
    requires key in s.definitions && depth <= env.limits.maxEvaluationDepth
    ensures Walkable(env, s) && Descending(s, path, key, visiting, depth) ==>
              met == DependenciesOf(env, s, key, 0, ctx, env.limits.maxEvaluationDepth - depth)
    decreases env.limits.maxEvaluationDepth - depth + 1, 0
  {
    ghost var good := Walkable(env, s) && Descending(s, path, key, visiting, depth);
    ghost var budget := env.limits.maxEvaluationDepth - depth;
    var dependencies := s.definitions[key].dependencies;
    for i := 0 to |dependencies|
      invariant good ==> DependenciesOf(env, s, key, 0, ctx, budget) == DependenciesOf(env, s, key, i, ctx, budget)
    {
      if good { NextOnPath(s, path, key, visiting, depth, i); }
      var r := EvaluateKey(env, s, dependencies[i].featureKey, ctx, visiting + {key}, depth + 1, path + [key]);
      if r.Failed? { return Broken(r.error); }
      if r.selection.variant != dependencies[i].requiredVariant { return Unmet; }
    }
    return AllMet;
  }

  lemma OnPath(s: Snapshot, path: seq<string>, key: string, visiting: set<string>, depth: nat)
    requires Acyclic(GraphOf(s.definitions)) && Descending(s, path, key, visiting, depth)
    ensures key in s.definitions && key !in visiting
  {
    var p := path + [key];
    assert p[|path|] in GraphOf(s.definitions);
    forall i | 0 <= i < |path| ensures path[i] != key {
      var q := p[i..];
      assert IsPath(GraphOf(s.definitions), q) && q[0] == path[i] && q[|q| - 1] == key;
    }
  }

  lemma NextOnPath(s: Snapshot, path: seq<string>, key: string, visiting: set<string>, depth: nat, i: nat)
    requires AllResolve(s.definitions) && Descending(s, path, key, visiting, depth)
    requires key in s.definitions && i < |s.definitions[key].dependencies|
    ensures Descending(s, path + [key], s.definitions[key].dependencies[i].featureKey, visiting + {key}, depth + 1)
  {
    var g, next := GraphOf(s.definitions), s.definitions[key].dependencies[i].featureKey;
    assert Resolves(s.definitions, s.definitions[key].dependencies[i]);
    assert g[key][i] == next;
    ElementsConcat(path, [key]);
    assert Elements([key]) == {key};
    var p, q := path + [key], path + [key] + [next];
    forall j | 0 <= j < |q| - 1 ensures q[j + 1] in g[q[j]] {
      assert q[j] == p[j];
      if j < |p| - 1 { assert q[j + 1] == p[j + 1]; }
    }
  }

  // ---- Evaluation of one request ----

  predicate ValidContext(env: Env, ctx: Context) {
    && |ctx.subject| <= env.limits.maxContextValueBytes && |ctx.tenant| <= env.limits.maxContextValueBytes
    && |ctx.environment| <= env.limits.maxContextValueBytes
    && |ctx.attributes| <= env.limits.maxAttributes && |ctx.facts| <= env.limits.maxFacts
    && (forall k :: k in ctx.attributes ==>
          |k| <= env.limits.maxContextKeyBytes && |ctx.attributes[k]| <= env.limits.maxContextValueBytes)
    && (forall k :: k in ctx.facts ==> |k| <= env.limits.maxContextKeyBytes && ValidValue(env, ctx.facts[k]))
  }

  /** The checks made before evaluation starts, in order. */
  function RequestError(env: Env, s: Snapshot, key: string, expected: Type, ctx: Context): (e: Option<EvalError>)
    ensures e == None ==> key in s.definitions
  {
    if s.tenant != "" && ctx.tenant != s.tenant then Some(TenantMismatch)
    else if !ValidContext(env, ctx) then Some(InvalidContext)
    else if key !in s.definitions then Some(FeatureNotFound)
    else if s.definitions[key].typ != expected then Some(TypeMismatch)
    else None
  }

  ghost function Answer(env: Env, s: Snapshot, key: string, expected: Type, ctx: Context): (r: Outcome)
    requires AllResolve(s.definitions)
  {
    var e := RequestError(env, s, key, expected, ctx);
    if e.Some? then Failed(e.value) else Denote(env, s, key, ctx, env.limits.maxEvaluationDepth)
  }

  method Evaluate(env: Env, s: Snapshot, key: string, expected: Type, ctx: Context) returns (r: Outcome)
    ensures Walkable(env, s) ==> r == Answer(env, s, key, expected, ctx)
  {
    hide Walkable, Descending, RequestError, Denote;
    var e := RequestError(env, s, key, expected, ctx);
    if e.Some? { return Failed(e.value); }
    StartOfPath(s, key);
    r := EvaluateKey(env, s, key, ctx, {}, 0, []);
  }

  lemma StartOfPath(s: Snapshot, key: string)
    requires key in s.definitions
    ensures Descending(s, [], key, {}, 0)
  {
    assert [] + [key] == [key];
  }

  /**
   * On an accepted snapshot a request never reports a cycle, a missing dependency or an over-deep group, and a
   * selected value always has the requested type, so a typed getter's type flag is always true.
   */
  lemma AcceptedNeverFailsStructurally(env: Env, s: Snapshot, key: string, expected: Type, ctx: Context)
    requires Sound(env, s)
    ensures Walkable(env, s) && StructuralAnswer(env, s, key, expected, ctx)
  {
    SoundIsWalkable(env, s);
    if key in s.definitions { SoundDecision(env, s, key, ctx); }
    TypedAnswers(env, s, key, expected, ctx);
  }

  ghost predicate StructuralAnswer(env: Env, s: Snapshot, key: string, expected: Type, ctx: Context)
    requires AllResolve(s.definitions)
  {
    match Answer(env, s, key, expected, ctx)
    case Failed(e) => e != DependencyCycle && e != GroupTooDeep && (e == FeatureNotFound ==> key !in s.definitions)
    case Selected(r) => r.value.Type() == expected
  }

  lemma TypedAnswers(env: Env, s: Snapshot, key: string, expected: Type, ctx: Context)
    requires AllResolve(s.definitions) && (key in s.definitions ==> TypedDecision(env, s, s.definitions[key], ctx))
    ensures StructuralAnswer(env, s, key, expected, ctx)
  {
    hide Denote, Decide;
    if key in s.definitions {
      SelectionIsTyped(env, s, key, ctx, env.limits.maxEvaluationDepth);
      OnlyTwoFailures(env, s, key, ctx, env.limits.maxEvaluationDepth);
    }
  }

  lemma SoundDecision(env: Env, s: Snapshot, key: string, ctx: Context)
    requires Sound(env, s) && key in s.definitions
    ensures TypedDecision(env, s, s.definitions[key], ctx)
  {
    DecisionIsTyped(env, s, s.definitions[key], ctx);
  }

  lemma {:induction false} OnlyTwoFailures(env: Env, s: Snapshot, key: string, ctx: Context, budget: int)
    requires AllResolve(s.definitions) && key in s.definitions
    ensures Denote(env, s, key, ctx, budget).Failed? ==>
              Denote(env, s, key, ctx, budget).error in {EvaluationTooDeep, StrategyFailed}
    decreases if budget < 0 then 0 else budget + 1, 1, 0
  {
    if budget >= 0 && s.definitions[key].lifecycle == Active {
      BrokenOnlyTwoWays(env, s, key, 0, ctx, budget);
      FirstMatchFails(env.runtime, s.definitions[key], ctx, Candidates(env, s, s.definitions[key]));
    }
  }

  lemma {:induction false} BrokenOnlyTwoWays(env: Env, s: Snapshot, key: string, i: nat, ctx: Context, budget: int)
    requires AllResolve(s.definitions) && key in s.definitions && i <= |s.definitions[key].dependencies| && budget >= 0
    ensures DependenciesOf(env, s, key, i, ctx, budget).Broken? ==>
              DependenciesOf(env, s, key, i, ctx, budget).error in {EvaluationTooDeep, StrategyFailed}
    decreases budget + 1, 0, |s.definitions[key].dependencies| - i
  {
    var ds := s.definitions[key].dependencies;
    if i < |ds| {
      assert Resolves(s.definitions, ds[i]);
      OnlyTwoFailures(env, s, ds[i].featureKey, ctx, budget - 1);
      BrokenOnlyTwoWays(env, s, key, i + 1, ctx, budget);
    }
  }

  lemma {:induction false} FirstMatchFails(rt: Runtime, d: Definition, ctx: Context, cs: seq<Candidate>)
    ensures var r := FirstMatch(rt, d, ctx, cs); r.Some? && r.value.Failed? ==> r.value.error == StrategyFailed
  {
    if cs != [] { FirstMatchFails(rt, d, ctx, cs[1..]); }
  }

  // ---- Candidates of an accepted snapshot ----

  ghost predicate CandidatesFit(env: Env, d: Definition, cs: seq<Candidate>) {
    forall i :: 0 <= i < |cs| ==> cs[i].strategy.variant in d.variants && ValidStrategy(env, cs[i].strategy)
  }

  lemma {:induction false} ChainFitsFeature(env: Env, d: Definition, gs: Groups, key: string, budget: int)
    requires ChainTargets(gs, key, d.variants, budget) && EachValid(env, gs)
    ensures CandidatesFit(env, d, ChainCandidates(gs, key, budget))
    decreases if budget < 0 then 0 else budget + 1
  {
    if key != "" && budget >= 0 {
      ChainFitsFeature(env, d, gs, ParentOf(gs, key), budget - 1);
      if key in gs {
        assert ValidGroup(env, gs[key]);
      }
    }
  }

  lemma {:induction false} GroupsFitFeature(env: Env, d: Definition, gs: Groups, keys: seq<string>)
    requires EachValid(env, gs)
    requires forall i :: 0 <= i < |keys| ==> ChainTargets(gs, keys[i], d.variants, env.limits.maxGroupDepth)
    ensures CandidatesFit(env, d, GroupCandidates(gs, keys, env.limits.maxGroupDepth))
  {
    if keys != [] {
      ChainFitsFeature(env, d, gs, keys[0], env.limits.maxGroupDepth);
      GroupsFitFeature(env, d, gs, keys[1..]);
    }
  }

  lemma AllCandidatesFit(env: Env, s: Snapshot, d: Definition)
    requires EachValid(env, s.groups) && Attached(env, d, s.groups) && ValidDefinition(env, d)
    ensures CandidatesFit(env, d, Candidates(env, s, d))
  {
    GroupsFitFeature(env, d, s.groups, d.groups);
    OwnCandidatesFit(env, d);
    FitTogether(env, d, GroupCandidates(s.groups, d.groups, env.limits.maxGroupDepth), FromGroup("", d.strategies));
  }

  lemma FitTogether(env: Env, d: Definition, a: seq<Candidate>, b: seq<Candidate>)
    requires CandidatesFit(env, d, a) && CandidatesFit(env, d, b)
    ensures CandidatesFit(env, d, a + b)
  {
  }

  lemma OwnCandidatesFit(env: Env, d: Definition)
    requires ValidDefinition(env, d)
    ensures CandidatesFit(env, d, FromGroup("", d.strategies))
    ensures d.default.Type() == d.typ && forall v :: v in d.variants ==> d.variants[v].Type() == d.typ
  {
  }

  lemma {:induction false} MatchIsTyped(env: Env, d: Definition, ctx: Context, cs: seq<Candidate>)
    requires CandidatesFit(env, d, cs) && forall v :: v in d.variants ==> d.variants[v].Type() == d.typ
    ensures var r := FirstMatch(env.runtime, d, ctx, cs); r.Some? && r.value.Selected? ==> r.value.selection.value.Type() == d.typ
  {
    if cs != [] {
      assert CandidatesFit(env, d, cs[1..]);
      MatchIsTyped(env, d, ctx, cs[1..]);
    }
  }

  ghost predicate TypedDecision(env: Env, s: Snapshot, d: Definition, ctx: Context) {
    var r := Decide(env, s, d, ctx);
    d.default.Type() == d.typ && (r.Selected? ==> r.selection.value.Type() == d.typ)
  }

  lemma DecisionIsTyped(env: Env, s: Snapshot, d: Definition, ctx: Context)
    requires EachValid(env, s.groups) && Attached(env, d, s.groups) && ValidDefinition(env, d)
    ensures TypedDecision(env, s, d, ctx)
  {
    OwnCandidatesFit(env, d);
    AllCandidatesFit(env, s, d);
    MatchIsTyped(env, d, ctx, Candidates(env, s, d));
  }

  /** Whatever a feature selects has the feature's declared type. */
  lemma SelectionIsTyped(env: Env, s: Snapshot, key: string, ctx: Context, budget: int)
    requires AllResolve(s.definitions) && key in s.definitions && TypedDecision(env, s, s.definitions[key], ctx)
    ensures var r := Denote(env, s, key, ctx, budget); r.Selected? ==> r.selection.value.Type() == s.definitions[key].typ
  {
  }

  // ---- Depth ----

  /** Every dependency chain from `key` has at most `budget` edges. */
  ghost predicate Shallow(s: Snapshot, key: string, budget: int)
    requires AllResolve(s.definitions) && key in s.definitions
    decreases if budget < 0 then 0 else budget + 1
  {
    budget >= 0
    && forall i :: 0 <= i < |s.definitions[key].dependencies| ==>
         Resolves(s.definitions, s.definitions[key].dependencies[i])
         && Shallow(s, s.definitions[key].dependencies[i].featureKey, budget - 1)
  }

  lemma PrependPath(g: Graph, key: string, p: seq<string>)
    requires IsPath(g, p) && key in g && p[0] in g[key]
    ensures IsPath(g, [key] + p)
  {
    var q := [key] + p;
    forall j | 0 <= j < |q| - 1 ensures q[j + 1] in g[q[j]] {
      if j > 0 { assert q[j] == p[j - 1] && q[j + 1] == p[j]; }
    }
  }

  /** A feature that is not shallow starts a chain one longer than the budget. */
  lemma {:induction false} LongChain(s: Snapshot, key: string, budget: int) returns (p: seq<string>)
    requires AllResolve(s.definitions) && key in s.definitions && budget >= -1 && !Shallow(s, key, budget)
    ensures |p| == budget + 2 && p[0] == key && IsPath(GraphOf(s.definitions), p)
    decreases budget + 1
  {
    if budget < 0 {
      p := [key];
    } else {
      var i :| 0 <= i < |s.definitions[key].dependencies|
               && !Shallow(s, s.definitions[key].dependencies[i].featureKey, budget - 1);
      var next := s.definitions[key].dependencies[i].featureKey;
      var rest := LongChain(s, next, budget - 1);
      assert GraphOf(s.definitions)[key][i] == next;
      PrependPath(GraphOf(s.definitions), key, rest);
      p := [key] + rest;
    }
  }

  lemma DeepExceeds(s: Snapshot, key: string, max: nat)
    requires AllResolve(s.definitions) && key in s.definitions && !Shallow(s, key, max)
    ensures !WithinDepth(GraphOf(s.definitions), max)
  {
    var p := LongChain(s, key, max);
  }

  /** A feature all of whose chains fit the budget is never cut short. */
  lemma {:induction false} NoDepthFailure(env: Env, s: Snapshot, key: string, ctx: Context, budget: int)
    requires AllResolve(s.definitions) && key in s.definitions && Shallow(s, key, budget)
    ensures Denote(env, s, key, ctx, budget) != Failed(EvaluationTooDeep)
    decreases if budget < 0 then 0 else budget + 1, 1, 0
  {
    if s.definitions[key].lifecycle == Active {
      NoDepthBreak(env, s, key, 0, ctx, budget);
      FirstMatchFails(env.runtime, s.definitions[key], ctx, Candidates(env, s, s.definitions[key]));
    }
  }

  lemma {:induction false} NoDepthBreak(env: Env, s: Snapshot, key: string, i: nat, ctx: Context, budget: int)
    requires AllResolve(s.definitions) && key in s.definitions && i <= |s.definitions[key].dependencies| && budget >= 0
    requires Shallow(s, key, budget)
    ensures DependenciesOf(env, s, key, i, ctx, budget) != Broken(EvaluationTooDeep)
    decreases budget + 1, 0, |s.definitions[key].dependencies| - i
  {
    var ds := s.definitions[key].dependencies;
    if i < |ds| {
      assert Resolves(s.definitions, ds[i]);
      NoDepthFailure(env, s, ds[i].featureKey, ctx, budget - 1);
      NoDepthBreak(env, s, key, i + 1, ctx, budget);
    }
  }

  /** An evaluation the bound did not cut short is unchanged by a larger bound. */
  lemma {:induction false} MoreBudget(env: Env, s: Snapshot, key: string, ctx: Context, a: int, b: int)
    requires AllResolve(s.definitions) && key in s.definitions && a <= b
    requires Denote(env, s, key, ctx, a) != Failed(EvaluationTooDeep)
    ensures Denote(env, s, key, ctx, b) == Denote(env, s, key, ctx, a)
    decreases if a < 0 then 0 else a + 1, 1, 0
  {
    if s.definitions[key].lifecycle == Active { MoreBudgetAll(env, s, key, 0, ctx, a, b); }
  }

  lemma {:induction false} MoreBudgetAll(env: Env, s: Snapshot, key: string, i: nat, ctx: Context, a: int, b: int)
    requires AllResolve(s.definitions) && key in s.definitions && i <= |s.definitions[key].dependencies| && 0 <= a <= b
    requires DependenciesOf(env, s, key, i, ctx, a) != Broken(EvaluationTooDeep)
    ensures DependenciesOf(env, s, key, i, ctx, b) == DependenciesOf(env, s, key, i, ctx, a)
    decreases a + 1, 0, |s.definitions[key].dependencies| - i
  {
    var ds := s.definitions[key].dependencies;
    if i < |ds| {
      assert Resolves(s.definitions, ds[i]);
      MoreBudget(env, s, ds[i].featureKey, ctx, a - 1, b - 1);
      var r := Denote(env, s, ds[i].featureKey, ctx, a - 1);
      if r.Selected? && r.selection.variant == ds[i].requiredVariant { MoreBudgetAll(env, s, key, i + 1, ctx, a, b); }
    }
  }

  // ---- The flat theorem ----

  ghost predicate BuiltIn(s: Snapshot) {
    && (forall k, i :: k in s.definitions && 0 <= i < |s.definitions[k].strategies| ==> !s.definitions[k].strategies[i].Custom?)
    && (forall k, i :: k in s.groups && 0 <= i < |s.groups[k].strategies| ==> !s.groups[k].strategies[i].Custom?)
  }

  ghost predicate NoneCustom(cs: seq<Candidate>) { forall i :: 0 <= i < |cs| ==> !cs[i].strategy.Custom? }

  lemma {:induction false} ChainNotCustom(s: Snapshot, key: string, budget: int)
    requires BuiltIn(s)
    ensures NoneCustom(ChainCandidates(s.groups, key, budget))
    decreases if budget < 0 then 0 else budget + 1
  {
    if key != "" && budget >= 0 { ChainNotCustom(s, ParentOf(s.groups, key), budget - 1); }
  }

  lemma {:induction false} GroupsNotCustom(s: Snapshot, keys: seq<string>, max: nat)
    requires BuiltIn(s)
    ensures NoneCustom(GroupCandidates(s.groups, keys, max))
  {
    if keys != [] {
      ChainNotCustom(s, keys[0], max);
      GroupsNotCustom(s, keys[1..], max);
    }
  }

  lemma ValidBuiltInSucceeds(env: Env, strategy: Strategy, feature: string, ctx: Context)
    requires ValidStrategy(env, strategy) && !strategy.Custom?
    ensures !EvaluateStrategy(env.runtime, strategy, feature, ctx).StrategyFailure?
  {
  }

  /** Valid built-in strategies cannot fail. */
  lemma {:induction false} BuiltInNeverFails(env: Env, d: Definition, ctx: Context, cs: seq<Candidate>)
    requires CandidatesFit(env, d, cs) && NoneCustom(cs)
    ensures var r := FirstMatch(env.runtime, d, ctx, cs); r.Some? ==> r.value.Selected?
  {
    if cs != [] {
      ValidBuiltInSucceeds(env, cs[0].strategy, d.key, ctx);
      assert CandidatesFit(env, d, cs[1..]) && NoneCustom(cs[1..]);
      BuiltInNeverFails(env, d, ctx, cs[1..]);
    }
  }

  lemma DecisionSucceeds(env: Env, s: Snapshot, d: Definition, ctx: Context)
    requires EachValid(env, s.groups) && Attached(env, d, s.groups) && ValidDefinition(env, d)
    requires BuiltIn(s) && forall i :: 0 <= i < |d.strategies| ==> !d.strategies[i].Custom?
    ensures Decide(env, s, d, ctx).Selected?
  {
    AllCandidatesFit(env, s, d);
    GroupsNotCustom(s, d.groups, env.limits.maxGroupDepth);
    assert NoneCustom(FromGroup("", d.strategies));
    BuiltInNeverFails(env, d, ctx, Candidates(env, s, d));
  }

  /** References resolve and no decision can fail. */
  ghost predicate Tame(env: Env, s: Snapshot, ctx: Context) {
    AllResolve(s.definitions) && forall k :: k in s.definitions ==> Decide(env, s, s.definitions[k], ctx).Selected?
  }

  lemma SoundBuiltInIsTame(env: Env, s: Snapshot, ctx: Context)
    requires Sound(env, s) && BuiltIn(s)
    ensures Tame(env, s, ctx)
  {
    forall k | k in s.definitions ensures Decide(env, s, s.definitions[k], ctx).Selected? {
      DecisionSucceeds(env, s, s.definitions[k], ctx);
    }
  }

  lemma {:induction false} AlwaysSelects(env: Env, s: Snapshot, key: string, ctx: Context, budget: int)
    requires Tame(env, s, ctx) && key in s.definitions && Shallow(s, key, budget)
    ensures Denote(env, s, key, ctx, budget).Selected?
    decreases if budget < 0 then 0 else budget + 1, 1, 0
  {
    if s.definitions[key].lifecycle == Active { NeverBreaks(env, s, key, 0, ctx, budget); }
  }

  /** Dependency `j` selected its required variant, evaluated one level further down. */
  ghost predicate MetAt(env: Env, s: Snapshot, key: string, j: nat, ctx: Context, budget: int)
    requires AllResolve(s.definitions) && key in s.definitions && j < |s.definitions[key].dependencies|
  {
    var d := s.definitions[key].dependencies[j];
    assert Resolves(s.definitions, d);
    var r := Denote(env, s, d.featureKey, ctx, budget - 1);
    r.Selected? && r.selection.variant == d.requiredVariant
  }

  ghost predicate MetFrom(env: Env, s: Snapshot, key: string, i: nat, ctx: Context, budget: int)
    requires AllResolve(s.definitions) && key in s.definitions
  {
    forall j :: i <= j < |s.definitions[key].dependencies| ==> MetAt(env, s, key, j, ctx, budget)
  }

  lemma MetFromStep(env: Env, s: Snapshot, key: string, i: nat, ctx: Context, budget: int)
    requires AllResolve(s.definitions) && key in s.definitions && i < |s.definitions[key].dependencies|
    ensures MetFrom(env, s, key, i, ctx, budget) <==> MetAt(env, s, key, i, ctx, budget) && MetFrom(env, s, key, i + 1, ctx, budget)
  {
  }

  /** With no failures about, dependencies are met exactly when every required variant is the one selected. */
  lemma {:induction false} NeverBreaks(env: Env, s: Snapshot, key: string, i: nat, ctx: Context, budget: int)
    requires Tame(env, s, ctx) && key in s.definitions && i <= |s.definitions[key].dependencies| && budget >= 0
    requires Shallow(s, key, budget)
    ensures DependenciesOf(env, s, key, i, ctx, budget) == if MetFrom(env, s, key, i, ctx, budget) then AllMet else Unmet
    decreases budget + 1, 0, |s.definitions[key].dependencies| - i
  {
    var ds := s.definitions[key].dependencies;
    if i < |ds| {
      assert Resolves(s.definitions, ds[i]);
      AlwaysSelects(env, s, ds[i].featureKey, ctx, budget - 1);
      NeverBreaks(env, s, key, i + 1, ctx, budget);
      MetFromStep(env, s, key, i, ctx, budget);
    }
  }

  /** No decision can fail and no chain is longer than the evaluation bound. */
  ghost predicate Readable(env: Env, s: Snapshot, ctx: Context) {
    Tame(env, s, ctx) && AllShallow(s, env.limits.maxEvaluationDepth)
  }

  lemma AcceptedBuiltInIsReadable(env: Env, s: Snapshot, ctx: Context)
    requires Sound(env, s) && BuiltIn(s) && WithinDepth(GraphOf(s.definitions), env.limits.maxEvaluationDepth)
    ensures Readable(env, s, ctx)
  {
    SoundBuiltInIsTame(env, s, ctx);
    BoundedIsShallow(s, env.limits.maxEvaluationDepth);
  }

  ghost predicate AllShallow(s: Snapshot, max: nat)
    requires AllResolve(s.definitions)
  {
    forall k :: k in s.definitions ==> Shallow(s, k, max)
  }

  lemma BoundedIsShallow(s: Snapshot, max: nat)
    requires AllResolve(s.definitions) && WithinDepth(GraphOf(s.definitions), max)
    ensures AllShallow(s, max)
  {
    forall k | k in s.definitions ensures Shallow(s, k, max) {
      if !Shallow(s, k, max) { DeepExceeds(s, k, max); }
    }
  }

  /** What a feature selects. */
  ghost function Meaning(env: Env, s: Snapshot, key: string, ctx: Context): (r: Selection)
    requires Readable(env, s, ctx) && key in s.definitions
    ensures Denote(env, s, key, ctx, env.limits.maxEvaluationDepth) == Selected(r)
  {
    AlwaysSelects(env, s, key, ctx, env.limits.maxEvaluationDepth);
    Denote(env, s, key, ctx, env.limits.maxEvaluationDepth).selection
  }

  lemma DependencyMeaning(env: Env, s: Snapshot, key: string, ctx: Context, j: nat)
    requires Readable(env, s, ctx) && key in s.definitions && j < |s.definitions[key].dependencies|
    ensures MetAt(env, s, key, j, ctx, env.limits.maxEvaluationDepth)
            <==> SelectsRequired(env, s, s.definitions[key].dependencies[j], ctx)
  {
    var d, max := s.definitions[key].dependencies[j], env.limits.maxEvaluationDepth;
    OneLevelDown(env, s, key, ctx, j, max);
    assert Denote(env, s, d.featureKey, ctx, max) == Selected(Meaning(env, s, d.featureKey, ctx));
  }

  lemma OneLevelDown(env: Env, s: Snapshot, key: string, ctx: Context, j: nat, max: nat)
    requires AllResolve(s.definitions) && key in s.definitions && j < |s.definitions[key].dependencies| && Shallow(s, key, max)
    ensures Resolves(s.definitions, s.definitions[key].dependencies[j])
    ensures Denote(env, s, s.definitions[key].dependencies[j].featureKey, ctx, max - 1)
            == Denote(env, s, s.definitions[key].dependencies[j].featureKey, ctx, max)
  {
    var d := s.definitions[key].dependencies[j];
    assert Resolves(s.definitions, d);
    NoDepthFailure(env, s, d.featureKey, ctx, max - 1);
    MoreBudget(env, s, d.featureKey, ctx, max - 1, max);
  }

  lemma FlatStep(env: Env, s: Snapshot, key: string, ctx: Context, budget: nat)
    requires Tame(env, s, ctx) && key in s.definitions && Shallow(s, key, budget)
    ensures var f := s.definitions[key];
            Denote(env, s, key, ctx, budget) == Selected(
              if f.lifecycle != Active then DefaultSelection(f, Inactive, [])
              else if MetFrom(env, s, key, 0, ctx, budget) then Decide(env, s, f, ctx).selection
              else DefaultSelection(f, DependencyFailed, UNMET))
  {
    NeverBreaks(env, s, key, 0, ctx, budget);
  }

  ghost predicate SelectsRequired(env: Env, s: Snapshot, d: Dependency, ctx: Context)
    requires Readable(env, s, ctx)
  {
    d.featureKey in s.definitions && Meaning(env, s, d.featureKey, ctx).variant == d.requiredVariant
  }

  /** The meaning of a feature through those of its dependencies; neither budgets nor dependency order appear. */
  lemma MeaningStep(env: Env, s: Snapshot, key: string, ctx: Context)
    requires Readable(env, s, ctx) && key in s.definitions
    ensures var f := s.definitions[key];
            Meaning(env, s, key, ctx) ==
              if f.lifecycle != Active then DefaultSelection(f, Inactive, [])
              else if forall d :: d in f.dependencies ==> SelectsRequired(env, s, d, ctx) then Decide(env, s, f, ctx).selection
              else DefaultSelection(f, DependencyFailed, UNMET)
  {
    var f, max := s.definitions[key], env.limits.maxEvaluationDepth;
    FlatStep(env, s, key, ctx, max);
    forall j | 0 <= j < |f.dependencies|
      ensures MetAt(env, s, key, j, ctx, max) <==> SelectsRequired(env, s, f.dependencies[j], ctx)
    {
      DependencyMeaning(env, s, key, ctx, j);
    }
  }
}
