/** Normal form keeps every validity verdict and every evaluation, so exporting and importing does too. */
module CodecMeaning {
  import opened Ordering
  import opened Keyed
  import opened Model
  import opened GroupForest
  import opened DependencyGraph
  import opened Evaluator
  import opened Codec

  function NormalDefinitions(definitions: map<string, Definition>): (r: map<string, Definition>) {
    map k | k in definitions :: NormalDefinition(definitions[k])
  }

  function NormalGroups(gs: Groups): (r: Groups) {
    map k | k in gs :: NormalGroup(gs[k])
  }

  function NormalSnapshot(s: Snapshot): (r: Snapshot) {
    Snapshot(NormalDefinitions(s.definitions), NormalGroups(s.groups), s.tenant)
  }

  // ---- One strategy ----

  lemma SortedListed(values: seq<string>)
    ensures |SortStrings(values)| == |values|
    ensures forall x :: x in SortStrings(values) <==> x in values
  {
    SameElements(SortStrings(values), values);
  }

  lemma NormalExact(env: Env, s: Strategy, feature: string, ctx: Context)
    requires s.Exact?
    ensures EvaluateStrategy(env.runtime, NormalStrategy(s), feature, ctx) == EvaluateStrategy(env.runtime, s, feature, ctx)
  {
    SortedListed(s.tenants);
    SortedListed(s.subjects);
    SortedListed(s.environments);
  }

  lemma NormalExactValid(env: Env, s: Strategy)
    requires s.Exact?
    ensures ValidStrategy(env, NormalStrategy(s)) <==> ValidStrategy(env, s)
  {
    hide SortStrings, ValidTargets, ValidWindow, ValidValue;
    SortedValid(env.limits, s.tenants);
    SortedValid(env.limits, s.subjects);
    SortedValid(env.limits, s.environments);
  }

  lemma ArrangedTargets(values: seq<string>, candidate: string)
    ensures Listed(SortStrings(values), candidate) <==> Listed(values, candidate)
    ensures ListedOrUnrestricted(SortStrings(values), candidate) <==> ListedOrUnrestricted(values, candidate)
  {
    SortedListed(values);
  }

  lemma NormalSets(env: Env, s: Strategy, feature: string, ctx: Context)
    requires s.Sets?
    ensures EvaluateStrategy(env.runtime, NormalStrategy(s), feature, ctx) == EvaluateStrategy(env.runtime, s, feature, ctx)
  {
    hide SortStrings, Listed, ListedOrUnrestricted, MatchesAttributes, WindowMatches;
    ArrangedTargets(s.allowTenants, ctx.tenant);
    ArrangedTargets(s.denyTenants, ctx.tenant);
    ArrangedTargets(s.allowSubjects, ctx.subject);
    ArrangedTargets(s.denySubjects, ctx.subject);
  }

  lemma NormalSetsValid(env: Env, s: Strategy)
    requires s.Sets?
    ensures ValidStrategy(env, NormalStrategy(s)) <==> ValidStrategy(env, s)
  {
    hide SortStrings, ValidTargets, ValidWindow, ValidValue;
    SortedValid(env.limits, s.allowTenants);
    SortedValid(env.limits, s.denyTenants);
    SortedValid(env.limits, s.allowSubjects);
    SortedValid(env.limits, s.denySubjects);
  }

  lemma SortedValid(limits: Limits, values: seq<string>)
    ensures |SortStrings(values)| == |values|
    ensures ValidTargets(limits, SortStrings(values)) <==> ValidTargets(limits, values)
  {
    SortedListed(values);
    var sorted := SortStrings(values);
    assert forall i :: 0 <= i < |values| ==> values[i] in sorted;
    assert forall i :: 0 <= i < |sorted| ==> sorted[i] in values;
  }

  /** Arranging target sets changes neither what a strategy does nor whether it is valid. */
  lemma NormalStrategyKeeps(env: Env, s: Strategy, feature: string, ctx: Context)
    ensures EvaluateStrategy(env.runtime, NormalStrategy(s), feature, ctx) == EvaluateStrategy(env.runtime, s, feature, ctx)
    ensures ValidStrategy(env, NormalStrategy(s)) <==> ValidStrategy(env, s)
    ensures NormalStrategy(s).name == s.name && NormalStrategy(s).variant == s.variant
  {
    if s.Exact? {
      NormalExact(env, s, feature, ctx);
      NormalExactValid(env, s);
    }
    if s.Sets? {
      NormalSets(env, s, feature, ctx);
      NormalSetsValid(env, s);
    }
  }

  // ---- Candidates ----

  function NormalCandidate(c: Candidate): (r: Candidate) { c.(strategy := NormalStrategy(c.strategy)) }

  function NormalCandidates(cs: seq<Candidate>): (r: seq<Candidate>) {
    Each(NormalCandidate, cs)
  }

  lemma NormalFromGroup(group: string, strategies: seq<Strategy>)
    ensures FromGroup(group, NormalStrategies(strategies)) == NormalCandidates(FromGroup(group, strategies))
  {
  }

  lemma {:induction false} NormalChain(gs: Groups, key: string, budget: int)
    ensures ChainCandidates(NormalGroups(gs), key, budget) == NormalCandidates(ChainCandidates(gs, key, budget))
    decreases if budget < 0 then 0 else budget + 1
  {
    if key != "" && budget >= 0 {
      NormalChain(gs, ParentOf(gs, key), budget - 1);
      NormalFromGroup(key, StrategiesOf(gs, key));
      EachConcat(NormalCandidate, FromGroup(key, StrategiesOf(gs, key)), ChainCandidates(gs, ParentOf(gs, key), budget - 1));
      NormalLink(gs, key);
      hide FromGroup, StrategiesOf, ParentOf, NormalGroups, NormalStrategies, Each;
    }
  }

  lemma NormalLink(gs: Groups, key: string)
    ensures StrategiesOf(NormalGroups(gs), key) == NormalStrategies(StrategiesOf(gs, key))
    ensures ParentOf(NormalGroups(gs), key) == ParentOf(gs, key)
  {
  }

  lemma {:induction false} NormalChains(gs: Groups, keys: seq<string>, max: nat)
    ensures GroupCandidates(NormalGroups(gs), keys, max) == NormalCandidates(GroupCandidates(gs, keys, max))
  {
    if keys != [] {
      NormalChain(gs, keys[0], max);
      NormalChains(gs, keys[1..], max);
      EachConcat(NormalCandidate, ChainCandidates(gs, keys[0], max), GroupCandidates(gs, keys[1..], max));
    }
  }

  lemma NormalTry(env: Env, d: Definition, ctx: Context, c: Candidate)
    ensures Try(env.runtime, NormalDefinition(d), ctx, NormalCandidate(c)) == Try(env.runtime, d, ctx, c)
  {
    NormalStrategyKeeps(env, c.strategy, d.key, ctx);
  }

  lemma {:induction false} NormalFirstMatch(env: Env, d: Definition, ctx: Context, cs: seq<Candidate>)
    ensures FirstMatch(env.runtime, NormalDefinition(d), ctx, NormalCandidates(cs)) == FirstMatch(env.runtime, d, ctx, cs)
  {
    if cs != [] {
      NormalTry(env, d, ctx, cs[0]);
      EachTail(NormalCandidate, cs);
      NormalFirstMatch(env, d, ctx, cs[1..]);
    }
  }

  lemma NormalDecide(env: Env, s: Snapshot, d: Definition, ctx: Context)
    ensures Decide(env, NormalSnapshot(s), NormalDefinition(d), ctx) == Decide(env, s, d, ctx)
  {
    var max := env.limits.maxGroupDepth;
    NormalChains(s.groups, d.groups, max);
    NormalFromGroup("", d.strategies);
    EachConcat(NormalCandidate, GroupCandidates(s.groups, d.groups, max), FromGroup("", d.strategies));
    NormalFirstMatch(env, d, ctx, Candidates(env, s, d));
  }

  // ---- Dependencies ----

  lemma SameDependencies(d: Definition)
    ensures |NormalDefinition(d).dependencies| == |d.dependencies|
    ensures forall x :: x in NormalDefinition(d).dependencies <==> x in d.dependencies
  {
    SameElements(NormalDefinition(d).dependencies, d.dependencies);
  }

  lemma NormalResolves(definitions: map<string, Definition>, d: Dependency)
    ensures Resolves(NormalDefinitions(definitions), d) <==> Resolves(definitions, d)
  {
  }

  lemma NormalAllResolve(definitions: map<string, Definition>)
    requires AllResolve(definitions)
    ensures AllResolve(NormalDefinitions(definitions))
  {
    var n := NormalDefinitions(definitions);
    forall k, i | k in n && 0 <= i < |n[k].dependencies| ensures Resolves(n, n[k].dependencies[i]) {
      assert n[k].dependencies[i] in NormalDefinition(definitions[k]).dependencies;
      NormalDependencyResolves(definitions, k, n[k].dependencies[i]);
    }
  }

  lemma NormalDependencyResolves(definitions: map<string, Definition>, k: string, d: Dependency)
    requires AllResolve(definitions) && k in definitions && d in NormalDefinition(definitions[k]).dependencies
    ensures Resolves(NormalDefinitions(definitions), d)
  {
    SameDependencies(definitions[k]);
    var j :| 0 <= j < |definitions[k].dependencies| && definitions[k].dependencies[j] == d;
    assert Resolves(definitions, definitions[k].dependencies[j]);
    NormalResolves(definitions, d);
  }

  lemma NormalEdges(definitions: map<string, Definition>, k: string, x: string)
    requires k in definitions
    ensures x in GraphOf(NormalDefinitions(definitions))[k] <==> x in GraphOf(definitions)[k]
  {
    var a, b := definitions[k].dependencies, NormalDefinitions(definitions)[k].dependencies;
    SameDependencies(definitions[k]);
    EdgeIsDependency(a, x);
    EdgeIsDependency(b, x);
  }

  lemma EdgeIsDependency(ds: seq<Dependency>, x: string)
    ensures x in DependencyKeys(ds) <==> exists d :: d in ds && d.featureKey == x
  {
    if x in DependencyKeys(ds) {
      var i :| 0 <= i < |ds| && DependencyKeys(ds)[i] == x;
      assert ds[i] in ds;
    }
    if d :| d in ds && d.featureKey == x {
      var i :| 0 <= i < |ds| && ds[i] == d;
      assert DependencyKeys(ds)[i] == x;
    }
  }

  lemma NormalPath(definitions: map<string, Definition>, p: seq<string>)
    ensures IsPath(GraphOf(NormalDefinitions(definitions)), p) <==> IsPath(GraphOf(definitions), p)
  {
    var g, n := GraphOf(definitions), GraphOf(NormalDefinitions(definitions));
    assert forall k :: k in g <==> k in n;
    if forall i :: 0 <= i < |p| ==> p[i] in g {
      forall i | 0 <= i < |p| - 1 ensures p[i + 1] in n[p[i]] <==> p[i + 1] in g[p[i]] {
        NormalEdges(definitions, p[i], p[i + 1]);
      }
    }
  }

  /** Neither cycles nor chain lengths depend on the order in which dependencies are listed. */
  lemma NormalGraph(definitions: map<string, Definition>, max: nat)
    ensures Acyclic(GraphOf(NormalDefinitions(definitions))) <==> Acyclic(GraphOf(definitions))
    ensures WithinDepth(GraphOf(NormalDefinitions(definitions)), max) <==> WithinDepth(GraphOf(definitions), max)
  {
    forall p ensures IsPath(GraphOf(NormalDefinitions(definitions)), p) <==> IsPath(GraphOf(definitions), p) {
      NormalPath(definitions, p);
    }
  }

  // ---- Validity ----

  lemma NormalStrategiesKeep(env: Env, strategies: seq<Strategy>)
    ensures forall i :: 0 <= i < |strategies| ==>
              var n := NormalStrategies(strategies)[i];
              n.name == strategies[i].name && n.variant == strategies[i].variant
              && (ValidStrategy(env, n) <==> ValidStrategy(env, strategies[i])) && (n.Custom? <==> strategies[i].Custom?)
  {
    forall i | 0 <= i < |strategies|
      ensures var n := NormalStrategies(strategies)[i];
              n.name == strategies[i].name && n.variant == strategies[i].variant
              && (ValidStrategy(env, n) <==> ValidStrategy(env, strategies[i])) && (n.Custom? <==> strategies[i].Custom?)
    {
      NormalStrategyKeeps(env, strategies[i], "", Context("", "", "", map[], map[], 0));
    }
  }

  lemma NormalLabels(limits: Limits, owner: string, metadata: map<string, string>, tags: seq<string>)
    ensures ValidLabels(limits, owner, metadata, SortStrings(tags)) <==> ValidLabels(limits, owner, metadata, tags)
  {
    SortedListed(tags);
    var sorted := SortStrings(tags);
    assert forall i :: 0 <= i < |sorted| ==> sorted[i] in tags;
    assert forall i :: 0 <= i < |tags| ==> tags[i] in sorted;
  }

  predicate ValidNeeds(limits: Limits, ds: seq<Dependency>) {
    forall i :: 0 <= i < |ds| ==> ValidKey(limits, ds[i].featureKey) && ValidKey(limits, ds[i].requiredVariant)
  }

  lemma NormalNeeds(limits: Limits, d: Definition)
    ensures ValidNeeds(limits, NormalDefinition(d).dependencies) <==> ValidNeeds(limits, d.dependencies)
  {
    SameDependencies(d);
    var n := NormalDefinition(d);
    assert forall i :: 0 <= i < |n.dependencies| ==> n.dependencies[i] in d.dependencies;
    assert forall i :: 0 <= i < |d.dependencies| ==> d.dependencies[i] in n.dependencies;
  }

  /** A definition and its normal form are valid together. */
  lemma NormalDefinitionValid(env: Env, d: Definition)
    ensures ValidDefinition(env, NormalDefinition(d)) <==> ValidDefinition(env, d)
  {
    NormalLabels(env.limits, d.owner, d.metadata, d.tags);
    NormalStrategiesKeep(env, d.strategies);
    SameDependencies(d);
    NormalNeeds(env.limits, d);
    hide ValidLabels, ValidStrategy, ValidValue, ValidKey;
  }

  lemma NormalGroupValid(env: Env, g: Group)
    ensures ValidGroup(env, NormalGroup(g)) <==> ValidGroup(env, g)
  {
    NormalLabels(env.limits, g.owner, g.metadata, g.tags);
    NormalStrategiesKeep(env, g.strategies);
    hide ValidLabels, ValidStrategy, ValidKey;
  }

  lemma {:induction false} NormalChainFits(gs: Groups, key: string, budget: int)
    ensures ChainFits(NormalGroups(gs), key, budget) <==> ChainFits(gs, key, budget)
    decreases if budget < 0 then 0 else budget + 1
  {
    if key != "" && budget >= 0 { NormalChainFits(gs, ParentOf(gs, key), budget - 1); }
  }

  lemma NormalTargets(strategies: seq<Strategy>, variants: map<string, Value>)
    ensures TargetsKnown(NormalStrategies(strategies), variants) <==> TargetsKnown(strategies, variants)
  {
    forall i | 0 <= i < |strategies| ensures NormalStrategies(strategies)[i].variant == strategies[i].variant {
      assert NormalStrategies(strategies)[i] == NormalStrategy(strategies[i]);
    }
  }

  lemma {:induction false} NormalChainTargets(gs: Groups, key: string, variants: map<string, Value>, budget: int)
    ensures ChainTargets(NormalGroups(gs), key, variants, budget) <==> ChainTargets(gs, key, variants, budget)
    decreases if budget < 0 then 0 else budget + 1
  {
    if key != "" && budget >= 0 {
      NormalChainTargets(gs, ParentOf(gs, key), variants, budget - 1);
      NormalTargets(StrategiesOf(gs, key), variants);
      assert StrategiesOf(NormalGroups(gs), key) == NormalStrategies(StrategiesOf(gs, key));
    }
  }

  lemma NormalGroupsValid(env: Env, gs: Groups)
    requires EachValid(env, gs)
    ensures EachValid(env, NormalGroups(gs))
  {
    forall k | k in gs ensures ValidGroup(env, NormalGroups(gs)[k]) { NormalGroupValid(env, gs[k]); }
  }

  lemma NormalForest(gs: Groups, max: nat)
    requires ParentsExist(gs) && Forest(gs, max)
    ensures ParentsExist(NormalGroups(gs)) && Forest(NormalGroups(gs), max) && |NormalGroups(gs)| == |gs|
  {
    forall k | k in gs ensures ChainFits(NormalGroups(gs), k, max) { NormalChainFits(gs, k, max); }
    assert NormalGroups(gs).Keys == gs.Keys;
  }

  lemma NormalAttachedTo(env: Env, d: Definition, gs: Groups)
    ensures Attached(env, NormalDefinition(d), NormalGroups(gs)) <==> Attached(env, d, gs)
  {
    forall i | 0 <= i < |d.groups|
      ensures ChainTargets(NormalGroups(gs), d.groups[i], d.variants, env.limits.maxGroupDepth)
              <==> ChainTargets(gs, d.groups[i], d.variants, env.limits.maxGroupDepth)
    {
      NormalChainTargets(gs, d.groups[i], d.variants, env.limits.maxGroupDepth);
    }
  }

  lemma NormalAttached(env: Env, definitions: map<string, Definition>, gs: Groups)
    ensures AllAttached(env, NormalDefinitions(definitions), NormalGroups(gs)) <==> AllAttached(env, definitions, gs)
  {
    forall k | k in definitions
      ensures Attached(env, NormalDefinitions(definitions)[k], NormalGroups(gs)) <==> Attached(env, definitions[k], gs)
    {
      NormalAttachedTo(env, definitions[k], gs);
    }
    hide Attached;
  }

  lemma NormalGroupsAccepted(env: Env, definitions: map<string, Definition>, gs: Groups)
    requires GroupsAccepted(env, definitions, gs)
    ensures GroupsAccepted(env, NormalDefinitions(definitions), NormalGroups(gs))
  {
    NormalGroupsValid(env, gs);
    NormalForest(gs, env.limits.maxGroupDepth);
    NormalAttached(env, definitions, gs);
  }

  lemma NormalDefinitionsValid(env: Env, definitions: map<string, Definition>)
    requires DefinitionsValid(env, definitions)
    ensures DefinitionsValid(env, NormalDefinitions(definitions))
  {
    forall k | k in definitions ensures ValidDefinition(env, NormalDefinition(definitions[k])) {
      NormalDefinitionValid(env, definitions[k]);
    }
  }

  lemma NormalSound(env: Env, s: Snapshot)
    requires Sound(env, s)
    ensures Sound(env, NormalSnapshot(s))
  {
    NormalDefinitionsValid(env, s.definitions);
    NormalAllResolve(s.definitions);
    NormalGraph(s.definitions, 0);
    NormalGroupsAccepted(env, s.definitions, s.groups);
  }

  // ---- Meaning ----

  lemma NormalTame(env: Env, s: Snapshot, ctx: Context)
    requires Tame(env, s, ctx)
    ensures Tame(env, NormalSnapshot(s), ctx)
  {
    NormalAllResolve(s.definitions);
    forall k | k in s.definitions
      ensures Decide(env, NormalSnapshot(s), NormalDefinition(s.definitions[k]), ctx).Selected?
    {
      NormalDecide(env, s, s.definitions[k], ctx);
    }
  }

  lemma ShallowDependency(s: Snapshot, key: string, budget: int, d: Dependency)
    requires AllResolve(s.definitions) && key in s.definitions && Shallow(s, key, budget) && d in s.definitions[key].dependencies
    ensures d.featureKey in s.definitions && Shallow(s, d.featureKey, budget - 1)
  {
    var i :| 0 <= i < |s.definitions[key].dependencies| && s.definitions[key].dependencies[i] == d;
    assert Resolves(s.definitions, s.definitions[key].dependencies[i]);
  }

  lemma ShallowByMembers(s: Snapshot, key: string, budget: int)
    requires AllResolve(s.definitions) && key in s.definitions && budget >= 0
    requires forall d :: d in s.definitions[key].dependencies ==>
               d.featureKey in s.definitions && Shallow(s, d.featureKey, budget - 1)
    ensures Shallow(s, key, budget)
  {
    var ds := s.definitions[key].dependencies;
    forall i | 0 <= i < |ds| ensures Resolves(s.definitions, ds[i]) && Shallow(s, ds[i].featureKey, budget - 1) {
      assert ds[i] in ds;
    }
  }

  /** The same features, each depending on the same variants of the same features. */
  ghost predicate SameShape(s: Snapshot, n: Snapshot) {
    && AllResolve(s.definitions) && AllResolve(n.definitions)
    && (forall k :: k in s.definitions <==> k in n.definitions)
    && forall k :: k in s.definitions ==> SameNeeds(s.definitions[k], n.definitions[k])
  }

  ghost predicate SameNeeds(a: Definition, b: Definition) {
    forall d :: d in a.dependencies <==> d in b.dependencies
  }

  lemma {:induction false} SameShapeShallow(s: Snapshot, n: Snapshot, key: string, budget: int)
    requires SameShape(s, n) && key in s.definitions && Shallow(s, key, budget)
    ensures Shallow(n, key, budget)
    decreases if budget < 0 then 0 else budget + 1
  {
    assert SameNeeds(s.definitions[key], n.definitions[key]);
    forall d | d in n.definitions[key].dependencies
      ensures d.featureKey in n.definitions && Shallow(n, d.featureKey, budget - 1)
    {
      ShallowDependency(s, key, budget, d);
      SameShapeShallow(s, n, d.featureKey, budget - 1);
    }
    ShallowByMembers(n, key, budget);
  }

  lemma NormalShape(s: Snapshot)
    requires AllResolve(s.definitions)
    ensures SameShape(s, NormalSnapshot(s))
  {
    NormalAllResolve(s.definitions);
    forall k | k in s.definitions ensures SameNeeds(s.definitions[k], NormalSnapshot(s).definitions[k]) {
      SameDependencies(s.definitions[k]);
    }
  }

  ghost predicate MetBy(env: Env, s: Snapshot, d: Dependency, ctx: Context, budget: int)
    requires AllResolve(s.definitions)
  {
    d.featureKey in s.definitions
    && var r := Denote(env, s, d.featureKey, ctx, budget - 1); r.Selected? && r.selection.variant == d.requiredVariant
  }

  ghost predicate AllMetBy(env: Env, s: Snapshot, key: string, ctx: Context, budget: int)
    requires AllResolve(s.definitions) && key in s.definitions
  {
    forall d :: d in s.definitions[key].dependencies ==> MetBy(env, s, d, ctx, budget)
  }

  lemma MetAtIsMetBy(env: Env, s: Snapshot, key: string, j: nat, ctx: Context, budget: int)
    requires AllResolve(s.definitions) && key in s.definitions && j < |s.definitions[key].dependencies|
    ensures MetAt(env, s, key, j, ctx, budget) <==> MetBy(env, s, s.definitions[key].dependencies[j], ctx, budget)
  {
    assert Resolves(s.definitions, s.definitions[key].dependencies[j]);
  }

  lemma MetByMembers(env: Env, s: Snapshot, key: string, ctx: Context, budget: int)
    requires AllResolve(s.definitions) && key in s.definitions
    ensures MetFrom(env, s, key, 0, ctx, budget) <==> AllMetBy(env, s, key, ctx, budget)
  {
    var ds := s.definitions[key].dependencies;
    forall j | 0 <= j < |ds| ensures MetAt(env, s, key, j, ctx, budget) <==> MetBy(env, s, ds[j], ctx, budget) {
      MetAtIsMetBy(env, s, key, j, ctx, budget);
    }
  }

  /** Nothing an evaluation looks at tells the two definitions apart. */
  ghost predicate Alike(env: Env, s: Snapshot, n: Snapshot, ctx: Context, k: string)
    requires k in s.definitions && k in n.definitions
  {
    var a, b := s.definitions[k], n.definitions[k];
    a.lifecycle == b.lifecycle && a.default == b.default && a.version == b.version
    && Decide(env, s, a, ctx) == Decide(env, n, b, ctx)
  }

  /** Both snapshots are free of failures, have the same shape, and no definition can be told from its counterpart. */
  ghost predicate Comparable(env: Env, s: Snapshot, n: Snapshot, ctx: Context) {
    && Tame(env, s, ctx) && Tame(env, n, ctx) && SameShape(s, n)
    && forall k :: k in s.definitions ==> Alike(env, s, n, ctx, k)
  }

  lemma {:induction false} ComparableDenote(env: Env, s: Snapshot, n: Snapshot, key: string, ctx: Context, budget: int)
    requires Comparable(env, s, n, ctx) && key in s.definitions && Shallow(s, key, budget)
    ensures Denote(env, n, key, ctx, budget) == Denote(env, s, key, ctx, budget)
    decreases budget, 2
  {
    ComparableMet(env, s, n, key, ctx, budget);
    SameShapeShallow(s, n, key, budget);
    FlatStep(env, s, key, ctx, budget);
    FlatStep(env, n, key, ctx, budget);
    assert Alike(env, s, n, ctx, key);
  }

  lemma {:induction false} ComparableMet(env: Env, s: Snapshot, n: Snapshot, key: string, ctx: Context, budget: int)
    requires Comparable(env, s, n, ctx) && key in s.definitions && Shallow(s, key, budget)
    ensures MetFrom(env, n, key, 0, ctx, budget) <==> MetFrom(env, s, key, 0, ctx, budget)
    decreases budget, 1
  {
    forall d | d in s.definitions[key].dependencies ensures MetBy(env, n, d, ctx, budget) <==> MetBy(env, s, d, ctx, budget) {
      ComparableMetBy(env, s, n, key, d, ctx, budget);
    }
    MetTogether(env, s, n, key, ctx, budget);
  }

  lemma {:induction false} ComparableMetBy(
    env: Env, s: Snapshot, n: Snapshot, key: string, d: Dependency, ctx: Context, budget: int)
    requires Comparable(env, s, n, ctx) && key in s.definitions && Shallow(s, key, budget)
    requires d in s.definitions[key].dependencies
    ensures MetBy(env, n, d, ctx, budget) <==> MetBy(env, s, d, ctx, budget)
    decreases budget, 0
  {
    hide Shallow, Tame, Alike;
    ShallowDependency(s, key, budget, d);
    ComparableDenote(env, s, n, d.featureKey, ctx, budget - 1);
    SameMet(env, s, n, d, ctx, budget);
  }

  lemma SameMet(env: Env, s: Snapshot, n: Snapshot, d: Dependency, ctx: Context, budget: int)
    requires AllResolve(s.definitions) && AllResolve(n.definitions)
    requires d.featureKey in s.definitions && d.featureKey in n.definitions
    requires Denote(env, n, d.featureKey, ctx, budget - 1) == Denote(env, s, d.featureKey, ctx, budget - 1)
    ensures MetBy(env, n, d, ctx, budget) <==> MetBy(env, s, d, ctx, budget)
  {
  }

  lemma MetTogether(env: Env, s: Snapshot, n: Snapshot, key: string, ctx: Context, budget: int)
    requires SameShape(s, n) && key in s.definitions
    requires forall d :: d in s.definitions[key].dependencies ==> (MetBy(env, n, d, ctx, budget) <==> MetBy(env, s, d, ctx, budget))
    ensures MetFrom(env, n, key, 0, ctx, budget) <==> MetFrom(env, s, key, 0, ctx, budget)
  {
    assert SameNeeds(s.definitions[key], n.definitions[key]);
    MetByMembers(env, s, key, ctx, budget);
    MetByMembers(env, n, key, ctx, budget);
  }

  lemma NormalComparable(env: Env, s: Snapshot, ctx: Context)
    requires Tame(env, s, ctx)
    ensures Comparable(env, s, NormalSnapshot(s), ctx)
  {
    NormalTame(env, s, ctx);
    NormalShape(s);
    forall k | k in s.definitions ensures Alike(env, s, NormalSnapshot(s), ctx, k) {
      NormalDecide(env, s, s.definitions[k], ctx);
    }
  }

  /** The requested feature, if it exists, has no chain beyond the evaluation bound. */
  ghost predicate WithinReach(env: Env, s: Snapshot, key: string)
    requires AllResolve(s.definitions)
  {
    key in s.definitions ==> Shallow(s, key, env.limits.maxEvaluationDepth)
  }

  /** The evaluation was cut short by the depth bound. */
  predicate CutShort(o: Outcome) { o == Failed(EvaluationTooDeep) }

  /** With enough budget for every chain of an acyclic graph nothing is cut short, and alike snapshots agree. */
  lemma AgreeUncut(env: Env, s: Snapshot, n: Snapshot, key: string, ctx: Context, budget: nat)
    requires Comparable(env, s, n, ctx) && key in s.definitions && Acyclic(GraphOf(s.definitions))
    requires !CutShort(Denote(env, s, key, ctx, budget)) && !CutShort(Denote(env, n, key, ctx, budget))
    ensures Denote(env, n, key, ctx, budget) == Denote(env, s, key, ctx, budget)
  {
    var g := GraphOf(s.definitions);
    var enough := if budget >= |g| then budget else |g|;
    AcyclicIsShallow(s, key, enough);
    ComparableDenote(env, s, n, key, ctx, enough);
    hide Denote, Comparable, Shallow;
    MoreBudget(env, s, key, ctx, budget, enough);
    MoreBudget(env, n, key, ctx, budget, enough);
  }

  lemma AcyclicIsShallow(s: Snapshot, key: string, max: nat)
    requires AllResolve(s.definitions) && key in s.definitions && Acyclic(GraphOf(s.definitions)) && max >= |GraphOf(s.definitions)|
    ensures Shallow(s, key, max)
  {
    AcyclicFits(GraphOf(s.definitions));
    if !Shallow(s, key, max) { DeepExceeds(s, key, max); }
  }

  /**
   * Every request to a failure-free acyclic snapshot, for every key, type and context, gets the same answer from the
   * normal form exactly when both or neither are cut short by the depth bound: no selected value ever becomes another
   * one. Neither is cut short when the requested feature's own chains fit the bound, as they do when the bound is
   * at least the number of features.
   */
  lemma NormalFormKeepsAnswers(env: Env, s: Snapshot, key: string, expected: Type, ctx: Context)
    requires Tame(env, s, ctx) && Acyclic(GraphOf(s.definitions))
    ensures Tame(env, NormalSnapshot(s), ctx)
    ensures var before, after := Answer(env, s, key, expected, ctx), Answer(env, NormalSnapshot(s), key, expected, ctx);
            && (after == before <==> (CutShort(after) <==> CutShort(before)))
            && (WithinReach(env, s, key) ==> after == before && !CutShort(before) && WithinReach(env, NormalSnapshot(s), key))
            && (env.limits.maxEvaluationDepth >= |s.definitions| ==> WithinReach(env, s, key))
  {
    NormalTame(env, s, ctx);
    NormalShape(s);
    NormalComparable(env, s, ctx);
    EnoughDepthReaches(env, s, key);
    SameReach(env, s, NormalSnapshot(s), key);
    hide *;
    NormalRequest(env, s, key, expected, ctx);
    SameDenotation(env, s, NormalSnapshot(s), key, ctx);
    SameAnswer(env, s, NormalSnapshot(s), key, expected, ctx);
  }

  lemma EnoughDepthReaches(env: Env, s: Snapshot, key: string)
    requires AllResolve(s.definitions) && Acyclic(GraphOf(s.definitions))
    ensures env.limits.maxEvaluationDepth >= |s.definitions| ==> WithinReach(env, s, key)
  {
    var g := GraphOf(s.definitions);
    assert |g| == |g.Keys| && |s.definitions| == |s.definitions.Keys|;
    if key in s.definitions && env.limits.maxEvaluationDepth >= |s.definitions| {
      AcyclicIsShallow(s, key, env.limits.maxEvaluationDepth);
    }
  }

  /** The verdicts of the two evaluations of one feature, at the snapshot's own bound. */
  ghost predicate Agree(env: Env, s: Snapshot, n: Snapshot, key: string, ctx: Context)
    requires SameShape(s, n) && key in s.definitions
  {
    var max := env.limits.maxEvaluationDepth;
    var before, after := Denote(env, s, key, ctx, max), Denote(env, n, key, ctx, max);
    && (after == before <==> (CutShort(after) <==> CutShort(before)))
    && (WithinReach(env, s, key) ==> after == before && !CutShort(before))
  }

  lemma ReachIsUncut(env: Env, s: Snapshot, n: Snapshot, key: string, ctx: Context, max: nat)
    requires Comparable(env, s, n, ctx) && key in s.definitions && Shallow(s, key, max)
    ensures !CutShort(Denote(env, s, key, ctx, max)) && Denote(env, n, key, ctx, max) == Denote(env, s, key, ctx, max)
  {
    NoDepthFailure(env, s, key, ctx, max);
    ComparableDenote(env, s, n, key, ctx, max);
  }

  lemma SameDenotation(env: Env, s: Snapshot, n: Snapshot, key: string, ctx: Context)
    requires Comparable(env, s, n, ctx) && Acyclic(GraphOf(s.definitions))
    ensures key in s.definitions ==> Agree(env, s, n, key, ctx)
  {
    hide Denote, Shallow, Alike, Tame, SameShape, Acyclic;
    var max := env.limits.maxEvaluationDepth;
    if key in s.definitions {
      SameKey(s, n, key);
      if !CutShort(Denote(env, s, key, ctx, max)) && !CutShort(Denote(env, n, key, ctx, max)) {
        AgreeUncut(env, s, n, key, ctx, max);
      }
      if Shallow(s, key, max) { ReachIsUncut(env, s, n, key, ctx, max); }
    }
  }

  lemma SameKey(s: Snapshot, n: Snapshot, key: string)
    requires SameShape(s, n) && key in s.definitions
    ensures AllResolve(s.definitions) && AllResolve(n.definitions) && key in n.definitions
  {
  }

  lemma SameReach(env: Env, s: Snapshot, n: Snapshot, key: string)
    requires SameShape(s, n)
    ensures WithinReach(env, s, key) ==> WithinReach(env, n, key)
  {
    if key in s.definitions && WithinReach(env, s, key) { SameShapeShallow(s, n, key, env.limits.maxEvaluationDepth); }
  }

  lemma SameAnswer(env: Env, s: Snapshot, n: Snapshot, key: string, expected: Type, ctx: Context)
    requires SameShape(s, n) && RequestError(env, n, key, expected, ctx) == RequestError(env, s, key, expected, ctx)
    requires key in s.definitions ==> Agree(env, s, n, key, ctx)
    ensures var before, after := Answer(env, s, key, expected, ctx), Answer(env, n, key, expected, ctx);
            && (after == before <==> (CutShort(after) <==> CutShort(before)))
            && (WithinReach(env, s, key) ==> after == before && !CutShort(before))
  {
    RequestFound(env, s, key, expected, ctx);
    hide RequestError, Denote, SameNeeds, WithinReach;
  }

  lemma RequestFound(env: Env, s: Snapshot, key: string, expected: Type, ctx: Context)
    ensures RequestError(env, s, key, expected, ctx) == None ==> key in s.definitions
    ensures RequestError(env, s, key, expected, ctx) != Some(EvaluationTooDeep)
  {
  }

  lemma NormalRequest(env: Env, s: Snapshot, key: string, expected: Type, ctx: Context)
    ensures RequestError(env, NormalSnapshot(s), key, expected, ctx) == RequestError(env, s, key, expected, ctx)
  {
  }
}
