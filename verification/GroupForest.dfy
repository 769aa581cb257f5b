/** Group inheritance: parent chains, the forest check, and what attached chains may target. */
module GroupForest {
  import opened Keyed
  import opened Model

  type Groups = map<string, Group>

  /** An absent key reads as a group without parent or strategies. */
  function ParentOf(gs: Groups, key: string): (p: string) { if key in gs then gs[key].parent else "" }

  function StrategiesOf(gs: Groups, key: string): (s: seq<Strategy>) { if key in gs then gs[key].strategies else [] }

  function Ancestor(gs: Groups, key: string, n: nat): (a: string) {
    if n == 0 then key else ParentOf(gs, Ancestor(gs, key, n - 1))
  }

  ghost predicate ParentsExist(gs: Groups) {
    forall k :: k in gs ==> gs[k].parent == "" || gs[k].parent in gs
  }

  /** The chain from `key` ends after at most `budget + 1` groups. */
  predicate ChainFits(gs: Groups, key: string, budget: int)
    decreases if budget < 0 then 0 else budget + 1
  {
    key == "" || (budget >= 0 && ChainFits(gs, ParentOf(gs, key), budget - 1))
  }

  ghost predicate Forest(gs: Groups, max: nat) {
    forall k :: k in gs ==> ChainFits(gs, k, max)
  }

  lemma {:induction false} AncestorStep(gs: Groups, key: string, n: nat)
    ensures Ancestor(gs, key, n + 1) == Ancestor(gs, ParentOf(gs, key), n)
  {
    if n > 0 { AncestorStep(gs, key, n - 1); }
  }

  lemma {:induction false} AncestorCompose(gs: Groups, key: string, m: nat, n: nat)
    ensures Ancestor(gs, Ancestor(gs, key, m), n) == Ancestor(gs, key, m + n)
  {
    if n > 0 { AncestorCompose(gs, key, m, n - 1); }
  }

  lemma {:induction false} RootStays(gs: Groups, n: nat)
    requires "" !in gs
    ensures Ancestor(gs, "", n) == ""
  {
    if n > 0 { RootStays(gs, n - 1); }
  }

  /** Fitting is exactly reaching the root: the ancestor one past the budget is the empty key. */
  lemma {:induction false} FitsMeansRooted(gs: Groups, key: string, budget: nat)
    requires "" !in gs
    ensures ChainFits(gs, key, budget) <==> Ancestor(gs, key, budget + 1) == ""
    decreases budget
  {
    AncestorStep(gs, key, budget);
    if key == "" {
      RootStays(gs, budget + 1);
    } else if budget == 0 {
      assert ChainFits(gs, key, 0) <==> ParentOf(gs, key) == "";
    } else {
      FitsMeansRooted(gs, ParentOf(gs, key), budget - 1);
    }
  }

  /** A group that is its own ancestor fits no bound. */
  lemma {:induction false} CycleNeverFits(gs: Groups, key: string, n: nat, budget: int)
    requires key != "" && n > 0 && Ancestor(gs, key, n) == key && "" !in gs
    ensures !ChainFits(gs, key, budget)
  {
    if budget >= 0 && ChainFits(gs, key, budget) {
      FitsMeansRooted(gs, key, budget);
      CycleRepeats(gs, key, n, budget + 1);
      AncestorCompose(gs, key, budget + 1, n * (budget + 1) - (budget + 1));
      RootStays(gs, n * (budget + 1) - (budget + 1));
    }
  }

  lemma {:induction false} CycleRepeats(gs: Groups, key: string, n: nat, times: nat)
    requires n > 0 && Ancestor(gs, key, n) == key
    ensures n * times >= times && Ancestor(gs, key, n * times) == key
  {
    if times > 0 {
      CycleRepeats(gs, key, n, times - 1);
      assert n * times == n * (times - 1) + n;
      AncestorCompose(gs, key, n * (times - 1), n);
    }
  }

  /** A forest has no group among its own ancestors. */
  lemma ForestIsAcyclic(gs: Groups, max: nat, key: string, n: nat)
    requires Forest(gs, max) && "" !in gs && key in gs && n > 0
    ensures Ancestor(gs, key, n) != key
  {
    if Ancestor(gs, key, n) == key { CycleNeverFits(gs, key, n, max); }
  }

  // ---- The forest check as it runs ----

  datatype ForestError = InheritanceTooDeep | InheritanceCycle

  method WalkChain(gs: Groups, max: nat, key: string) returns (e: Option<ForestError>)
    requires "" !in gs
    ensures e == None <==> ChainFits(gs, key, max)
    ensures e == Some(InheritanceCycle) ==> exists m: nat, n: nat ::
              n > 0 && Ancestor(gs, key, m) != "" && Ancestor(gs, Ancestor(gs, key, m), n) == Ancestor(gs, key, m)
  {
    var visiting: set<string> := {};
    var current, depth := key, 0;
    while current != ""
      invariant 0 <= depth <= max + 1 && current == Ancestor(gs, key, depth)
      invariant forall v :: v in visiting ==> exists m: nat :: m < depth && Ancestor(gs, key, m) == v
      invariant ChainFits(gs, key, max) <==> ChainFits(gs, current, max - depth)
      decreases max + 1 - depth
    {
      if depth > max { return Some(InheritanceTooDeep); }
      if current in visiting {
        var m: nat :| m < depth && Ancestor(gs, key, m) == current;
        AncestorCompose(gs, key, m, depth - m);
        CycleNeverFits(gs, current, depth - m, max - depth);
        return Some(InheritanceCycle);
      }
      visiting := visiting + {current};
      current := if current in gs then gs[current].parent else "";
      depth := depth + 1;
    }
    return None;
  }

  method ValidateGroupGraph(gs: Groups, max: nat) returns (e: Option<ForestError>)
    requires "" !in gs
    ensures e == None <==> Forest(gs, max)
  {
    var todo := gs.Keys;
    while todo != {}
      invariant todo <= gs.Keys && forall k :: k in gs && k !in todo ==> ChainFits(gs, k, max)
      decreases |todo|
    {
      var key :| key in todo;
      e := WalkChain(gs, max, key);
      if e != None { return; }
      todo := todo - {key};
    }
    return None;
  }

  // ---- Attachment and the whole group check ----

  predicate TargetsKnown(strategies: seq<Strategy>, variants: map<string, Value>) {
    forall i :: 0 <= i < |strategies| ==> strategies[i].variant in variants
  }

  /** Every strategy a feature inherits along one chain targets one of its variants. */
  predicate ChainTargets(gs: Groups, key: string, variants: map<string, Value>, budget: int)
    decreases if budget < 0 then 0 else budget + 1
  {
    key == "" || budget < 0
    || (TargetsKnown(StrategiesOf(gs, key), variants) && ChainTargets(gs, ParentOf(gs, key), variants, budget - 1))
  }

  ghost predicate Attached(env: Env, d: Definition, gs: Groups) {
    forall i :: 0 <= i < |d.groups| ==>
      d.groups[i] in gs && ChainTargets(gs, d.groups[i], d.variants, env.limits.maxGroupDepth)
  }

  ghost predicate AllAttached(env: Env, definitions: map<string, Definition>, gs: Groups) {
    forall k :: k in definitions ==> Attached(env, definitions[k], gs)
  }

  ghost predicate EachValid(env: Env, gs: Groups) {
    forall k :: k in gs ==> gs[k].key == k && ValidGroup(env, gs[k])
  }

  ghost predicate GroupsWellFormed(env: Env, gs: Groups) {
    && |gs| <= env.limits.maxGroups
    && EachValid(env, gs)
    && ParentsExist(gs)
    && Forest(gs, env.limits.maxGroupDepth)
  }

  /** Whether a tenant's groups are accepted together with its live definitions. */
  ghost predicate GroupsAccepted(env: Env, definitions: map<string, Definition>, gs: Groups) {
    GroupsWellFormed(env, gs) && AllAttached(env, definitions, gs)
  }

  function GroupKey(g: Group): (key: string) { g.key }

  /** The checks on each listed group, in order, with the duplicate check against those before it. */
  method CollectGroups(env: Env, groups: seq<Group>) returns (gs: Option<Groups>)
    ensures gs.Some? <==> |groups| <= env.limits.maxGroups && DistinctKeys(groups, GroupKey)
                          && forall i :: 0 <= i < |groups| ==> ValidGroup(env, groups[i])
    ensures gs.Some? ==> gs.value == Index(groups, GroupKey)
  {
    if |groups| > env.limits.maxGroups { return None; }
    var cloned: Groups := map[];
    for i := 0 to |groups|
      invariant Collected(env, groups, i, cloned)
    {
      CollectOne(env, groups, i, cloned);
      if !ValidGroup(env, groups[i]) { return None; }
      if groups[i].key in cloned { return None; }
      cloned := cloned[groups[i].key := groups[i]];
    }
    assert groups[..|groups|] == groups;
    return Some(cloned);
  }

  ghost predicate Collected(env: Env, groups: seq<Group>, n: nat, cloned: Groups) {
    && n <= |groups| && cloned == Index(groups[..n], GroupKey) && DistinctKeys(groups[..n], GroupKey)
    && forall j :: 0 <= j < n ==> ValidGroup(env, groups[j])
  }

  lemma CollectOne(env: Env, groups: seq<Group>, i: nat, cloned: Groups)
    requires Collected(env, groups, i, cloned) && i < |groups|
    ensures groups[i].key in cloned ==> !DistinctKeys(groups, GroupKey)
    ensures ValidGroup(env, groups[i]) && groups[i].key !in cloned ==>
              Collected(env, groups, i + 1, cloned[groups[i].key := groups[i]])
  {
    hide ValidGroup, DistinctKeys;
    IndexAppend(groups, i, GroupKey);
    DistinctAppend(groups, i, GroupKey);
    if groups[i].key in cloned { KeyRepeats(groups, i, GroupKey); }
  }

  method ParentsResolve(gs: Groups) returns (ok: bool)
    ensures ok <==> ParentsExist(gs)
  {
    var todo := gs.Keys;
    while todo != {}
      invariant todo <= gs.Keys && forall k :: k in gs && k !in todo ==> gs[k].parent == "" || gs[k].parent in gs
      decreases |todo|
    {
      var key :| key in todo;
      if gs[key].parent != "" && gs[key].parent !in gs { return false; }
      todo := todo - {key};
    }
    return true;
  }

  /** Walks one attached chain to its root, checking targets on the way. */
  method ChainTargetsKnown(gs: Groups, key: string, variants: map<string, Value>, max: nat) returns (ok: bool)
    requires ChainFits(gs, key, max)
    ensures ok <==> ChainTargets(gs, key, variants, max)
  {
    var current := key;
    var budget: int := max;
    while current != ""
      invariant ChainFits(gs, current, budget)
      invariant ChainTargets(gs, key, variants, max) <==> ChainTargets(gs, current, variants, budget)
      decreases budget + 1
    {
      var strategies := StrategiesOf(gs, current);
      if !TargetsKnown(strategies, variants) { return false; }
      current := ParentOf(gs, current);
      budget := budget - 1;
    }
    return true;
  }

  method AttachmentsKnown(env: Env, d: Definition, gs: Groups) returns (ok: bool)
    requires Forest(gs, env.limits.maxGroupDepth)
    ensures ok <==> Attached(env, d, gs)
  {
    for i := 0 to |d.groups|
      invariant forall j :: 0 <= j < i ==>
                  d.groups[j] in gs && ChainTargets(gs, d.groups[j], d.variants, env.limits.maxGroupDepth)
    {
      if d.groups[i] !in gs { return false; }
      ok := ChainTargetsKnown(gs, d.groups[i], d.variants, env.limits.maxGroupDepth);
      if !ok { return; }
    }
    return true;
  }

  method AllAttachmentsKnown(env: Env, definitions: map<string, Definition>, gs: Groups) returns (ok: bool)
    requires Forest(gs, env.limits.maxGroupDepth)
    ensures ok <==> AllAttached(env, definitions, gs)
  {
    var todo := definitions.Keys;
    while todo != {}
      invariant todo <= definitions.Keys && forall k :: k in definitions && k !in todo ==> Attached(env, definitions[k], gs)
      decreases |todo|
    {
      var key :| key in todo;
      ok := AttachmentsKnown(env, definitions[key], gs);
      if !ok { return; }
      todo := todo - {key};
    }
    return true;
  }

  /** Accepts a list of groups exactly when its keys are distinct and the resulting map is accepted. */
  method ValidateGroups(env: Env, definitions: map<string, Definition>, groups: seq<Group>) returns (r: Option<Groups>)
    ensures r.Some? <==> DistinctKeys(groups, GroupKey) && GroupsAccepted(env, definitions, Index(groups, GroupKey))
    ensures r.Some? ==> r.value == Index(groups, GroupKey)
  {
    ListedGroupsValid(env, groups);
    r := CollectGroups(env, groups);
    if r == None { return; }
    var parents := ParentsResolve(r.value);
    if !parents { return None; }
    var e := ValidateGroupGraph(r.value, env.limits.maxGroupDepth);
    if e != None { return None; }
    var ok := AllAttachmentsKnown(env, definitions, r.value);
    if !ok { return None; }
  }

  lemma ListedGroupsValid(env: Env, groups: seq<Group>)
    ensures DistinctKeys(groups, GroupKey) ==>
              var gs := Index(groups, GroupKey);
              (|groups| <= env.limits.maxGroups && forall i :: 0 <= i < |groups| ==> ValidGroup(env, groups[i]))
              <==> (|gs| <= env.limits.maxGroups && EachValid(env, gs))
  {
    if DistinctKeys(groups, GroupKey) { IndexDistinct(groups, GroupKey); }
  }

  // ---- What changes keep the forest ----

  lemma {:induction false} ChainFitsMore(gs: Groups, key: string, a: int, b: int)
    requires a <= b && ChainFits(gs, key, a)
    ensures ChainFits(gs, key, b)
    decreases if a < 0 then 0 else a + 1
  {
    if key != "" { ChainFitsMore(gs, ParentOf(gs, key), a - 1, b - 1); }
  }

  /** Removing a group that is nobody's parent shortens no other chain. */
  lemma {:induction false} ChainWithout(gs: Groups, gone: string, key: string, budget: int)
    requires forall k :: k in gs ==> gs[k].parent != gone
    requires key != gone && ChainFits(gs, key, budget)
    ensures ChainFits(gs - {gone}, key, budget)
    decreases if budget < 0 then 0 else budget + 1
  {
    if key != "" {
      if key in gs || gone != "" { ChainWithout(gs, gone, ParentOf(gs, key), budget - 1); }
    }
  }

  lemma DeletionKeepsForest(env: Env, gs: Groups, gone: string)
    requires GroupsWellFormed(env, gs) && gone in gs && forall k :: k in gs ==> gs[k].parent != gone
    ensures GroupsWellFormed(env, gs - {gone})
  {
    MapShrinks(gs, gone);
    DeletionKeepsChains(gs, gone, env.limits.maxGroupDepth);
    assert ParentsExist(gs - {gone});
    SubsetStaysValid(env, gs, gs - {gone});
  }

  lemma SubsetStaysValid(env: Env, gs: Groups, some: Groups)
    requires EachValid(env, gs) && forall k :: k in some ==> k in gs && some[k] == gs[k]
    ensures EachValid(env, some)
  {
  }

  lemma DeletionKeepsChains(gs: Groups, gone: string, max: nat)
    requires Forest(gs, max) && forall k :: k in gs ==> gs[k].parent != gone
    ensures Forest(gs - {gone}, max)
  {
    forall k | k in gs - {gone} ensures ChainFits(gs - {gone}, k, max) { ChainWithout(gs, gone, k, max); }
  }
}
