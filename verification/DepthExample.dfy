/** Four flags with a chain beyond the bound: what arranging dependencies can change. */
module DepthExample {
  import opened Ordering
  import opened Keyed
  import opened Model
  import opened GroupForest
  import opened DependencyGraph
  import opened Evaluator
  import opened Codec
  import opened CodecMeaning
  import opened Portable

  // ---- The graphs ----

  const DECLARED: Graph := map["a" := ["c", "b"], "b" := ["c"], "c" := ["d"], "d" := []]
  const ARRANGED: Graph := map["a" := ["b", "c"], "b" := ["c"], "c" := ["d"], "d" := []]

  const ORDER := ["a", "b", "c", "d"]

  ghost predicate FindsTooDeep(g: Graph, max: nat, order: seq<string>) {
    Closed(g) && (forall i :: 0 <= i < |order| ==> order[i] in g) && VisitAll(g, max, order, 0, {}, {}).TooDeep?
  }

  lemma ArrangedRejected()
    ensures FindsTooDeep(ARRANGED, 2, ORDER)
  {
    assert VisitAll(ARRANGED, 2, ["d"], 3, {"a"} + {"b"} + {"c"}, {}).TooDeep?;
    assert VisitAll(ARRANGED, 2, ["c"], 2, {"a"} + {"b"}, {}).TooDeep?;
    assert VisitAll(ARRANGED, 2, ["b", "c"], 1, {"a"}, {}).TooDeep?;
    assert {} + {"a"} == {"a"};
    assert Visit(ARRANGED, 2, "a", 0, {}, {}).TooDeep?;
  }

  lemma DeclaredAccepted()
    ensures Closed(DECLARED) && Accepts(DECLARED, 2, ["a", "b", "c", "d"])
  {
    assert VisitAll(DECLARED, 2, ["d"], 2, {"a"} + {"c"}, {}) == Visited({"d"}) by {
      assert VisitAll(DECLARED, 2, [], 3, {"a"} + {"c"} + {"d"}, {}) == Visited({});
      assert Visit(DECLARED, 2, "d", 2, {"a"} + {"c"}, {}) == Visited({} + {"d"});
    }
    var done := {"d"} + {"c"};
    assert Visit(DECLARED, 2, "c", 1, {"a"}, {}) == Visited(done);
    assert VisitAll(DECLARED, 2, ["c"], 2, {"a"} + {"b"}, done) == Visited(done);
    assert Visit(DECLARED, 2, "b", 1, {"a"}, done) == Visited(done + {"b"});
    assert DECLARED["a"][1..] == ["b"];
    assert VisitAll(DECLARED, 2, ["b"], 1, {"a"}, done) == Visited(done + {"b"});
    assert VisitAll(DECLARED, 2, ["c", "b"], 1, {"a"}, {}) == Visited(done + {"b"});
    assert {} + {"a"} == {"a"};
    var all := done + {"b"} + {"a"};
    assert Visit(DECLARED, 2, "a", 0, {}, {}) == Visited(all);
    var rest := ["b", "c", "d"];
    assert ["a", "b", "c", "d"][1..] == rest && rest[1..] == ["c", "d"] && rest[1..][1..] == ["d"];
    assert VisitAll(DECLARED, 2, ["d"], 0, {}, all) == Visited(all);
    assert VisitAll(DECLARED, 2, ["c", "d"], 0, {}, all) == Visited(all);
    assert VisitAll(DECLARED, 2, rest, 0, {}, all) == Visited(all);
  }

  // ---- The flags ----

  const ON_B := Dependency("b", "on")
  const ON_C := Dependency("c", "on")
  const ON_D := Dependency("d", "on")

  /** A boolean flag that offers the variant "on" and never selects it. */
  function Flag(key: string, lifecycle: Lifecycle, needs: seq<Dependency>): (d: Definition) {
    Definition(key, BooleanType, BooleanValue(false), map["on" := BooleanValue(true)], map[], "", lifecycle, needs, [], [], 1, [])
  }

  const A := Flag("a", Active, [ON_C, ON_B])
  const B := Flag("b", Active, [ON_C])
  const C := Flag("c", Active, [ON_D])
  const D := Flag("d", Inactivated, [])

  const FLAGS := [A, B, C, D]
  const FLAG_MAP: map<string, Definition> := map["a" := A, "b" := B, "c" := C, "d" := D]

  /** Two dependency edges may be followed, and the limits have room for the four flags. */
  predicate TwoDeep(limits: Limits) {
    && limits.maxEvaluationDepth == 2 && limits.maxFeatures >= 4 && limits.maxVariants >= 1 && limits.maxDependencies >= 2
    && limits.maxKeyBytes >= 2
  }

  lemma FourDistinct<T>(a: T, b: T, c: T, d: T, key: T -> string)
    requires key(a) != key(b) && key(a) != key(c) && key(a) != key(d) && key(b) != key(c) && key(b) != key(d) && key(c) != key(d)
    ensures DistinctKeys([a, b, c, d], key)
  {
  }

  lemma IndexFour<T>(a: T, b: T, c: T, d: T, key: T -> string)
    requires key(a) != key(b) && key(a) != key(c) && key(a) != key(d) && key(b) != key(c) && key(b) != key(d) && key(c) != key(d)
    ensures Index([a, b, c, d], key) == map[key(a) := a, key(b) := b, key(c) := c, key(d) := d]
    ensures DistinctKeys([a, b, c, d], key)
  {
    assert Index<string, T>([], key) == map[];
    hide Index, DistinctKeys;
    FourDistinct(a, b, c, d, key);
    assert [] + [a] == [a] && [a] + [b] == [a, b] && [a, b] + [c] == [a, b, c] && [a, b, c] + [d] == [a, b, c, d];
    IndexSnoc([], a, key);
    IndexSnoc([a], b, key);
    assert Index([a, b], key) == map[key(a) := a, key(b) := b];
    IndexSnoc([a, b], c, key);
    assert Index([a, b, c], key) == map[key(a) := a, key(b) := b, key(c) := c];
    IndexSnoc([a, b, c], d, key);
  }

  lemma FlagsAreIndexed()
    ensures Index(FLAGS, DefinitionKey) == FLAG_MAP && DistinctKeys(FLAGS, DefinitionKey)
  {
    hide Index, DistinctKeys;
    IndexFour(A, B, C, D, DefinitionKey);
  }

  lemma ArrangedNeeds()
    ensures Sort(DependencyLeq, [ON_C, ON_B]) == [ON_B, ON_C]
    ensures Sort(DependencyLeq, [ON_C]) == [ON_C] && Sort(DependencyLeq, [ON_D]) == [ON_D] && Sort(DependencyLeq, []) == []
  {
    DependencyOrderIsTotal();
    assert StringLeq("b", "c");
    assert multiset([ON_B, ON_C]) == multiset([ON_C, ON_B]);
    SortedUnique(DependencyLeq, Sort(DependencyLeq, [ON_C, ON_B]), [ON_B, ON_C]);
    SortedUnique(DependencyLeq, Sort(DependencyLeq, [ON_C]), [ON_C]);
    SortedUnique(DependencyLeq, Sort(DependencyLeq, [ON_D]), [ON_D]);
  }

  lemma FlagGraph()
    ensures GraphOf(FLAG_MAP) == DECLARED
  {
    assert DependencyKeys([ON_C, ON_B]) == ["c", "b"] && DependencyKeys([ON_C]) == ["c"] && DependencyKeys([ON_D]) == ["d"];
  }

  lemma NormalFlag(d: Definition)
    ensures NormalDefinition(d).dependencies == Sort(DependencyLeq, d.dependencies) && NormalDefinition(d).lifecycle == d.lifecycle
  {
  }

  lemma ArrangedAt(key: string, d: Definition, arranged: seq<Dependency>)
    requires key in FLAG_MAP && FLAG_MAP[key] == d && Sort(DependencyLeq, d.dependencies) == arranged
    ensures key in GraphOf(NormalDefinitions(FLAG_MAP))
    ensures GraphOf(NormalDefinitions(FLAG_MAP))[key] == DependencyKeys(arranged)
  {
    hide Sort, NormalDefinition;
    NormalFlag(d);
  }

  lemma IsArranged(g: Graph)
    requires g.Keys == {"a", "b", "c", "d"} && g["a"] == DependencyKeys([ON_B, ON_C]) && g["b"] == DependencyKeys([ON_C])
    requires g["c"] == DependencyKeys([ON_D]) && g["d"] == DependencyKeys([])
    ensures g == ARRANGED
  {
    assert g["a"] == ["b", "c"] && g["b"] == ["c"] && g["c"] == ["d"] && g["d"] == [];
  }

  lemma FlagsAreKept()
    ensures GraphOf(NormalDefinitions(FLAG_MAP)).Keys == {"a", "b", "c", "d"}
    ensures A.dependencies == [ON_C, ON_B] && B.dependencies == [ON_C] && C.dependencies == [ON_D] && D.dependencies == []
    ensures FLAG_MAP == map["a" := A, "b" := B, "c" := C, "d" := D]
  {
    hide NormalDefinition;
  }

  lemma ArrangedGraph()
    ensures GraphOf(NormalDefinitions(FLAG_MAP)) == ARRANGED
  {
    hide *;
    FlagsAreKept();
    ArrangedNeeds();
    ArrangedAt("a", A, [ON_B, ON_C]);
    ArrangedAt("b", B, [ON_C]);
    ArrangedAt("c", C, [ON_D]);
    ArrangedAt("d", D, []);
    IsArranged(GraphOf(NormalDefinitions(FLAG_MAP)));
  }

  lemma FlagIsValid(env: Env, key: string, lifecycle: Lifecycle, needs: seq<Dependency>)
    requires TwoDeep(env.limits) && |key| == 1 && |needs| <= 2
    requires forall i :: 0 <= i < |needs| ==> |needs[i].featureKey| == 1 && needs[i].requiredVariant == "on"
    ensures ValidDefinition(env, Flag(key, lifecycle, needs)) && NoCustom(Flag(key, lifecycle, needs).strategies)
  {
  }

  lemma NeedsAreShort()
    ensures |ON_B.featureKey| == |ON_C.featureKey| == |ON_D.featureKey| == 1
    ensures ON_B.requiredVariant == ON_C.requiredVariant == ON_D.requiredVariant == "on"
  {
  }

  lemma EachFlagIsValid(env: Env)
    requires TwoDeep(env.limits)
    ensures ValidDefinition(env, A) && ValidDefinition(env, B) && ValidDefinition(env, C) && ValidDefinition(env, D)
    ensures NoCustom(A.strategies) && NoCustom(B.strategies) && NoCustom(C.strategies) && NoCustom(D.strategies)
  {
    hide ValidDefinition, NoCustom, TwoDeep;
    NeedsAreShort();
    FlagIsValid(env, "a", Active, [ON_C, ON_B]);
    FlagIsValid(env, "b", Active, [ON_C]);
    FlagIsValid(env, "c", Active, [ON_D]);
    FlagIsValid(env, "d", Inactivated, []);
  }

  lemma FlagsAreValid(env: Env)
    requires TwoDeep(env.limits)
    ensures DefinitionsValid(env, FLAG_MAP) && (forall i :: 0 <= i < |FLAGS| ==> NoCustom(FLAGS[i].strategies))
  {
    hide ValidDefinition, NoCustom, TwoDeep;
    EachFlagIsValid(env);
  }

  lemma FlagsResolve()
    ensures AllResolve(FLAG_MAP) && FLAG_MAP.Keys == {"a", "b", "c", "d"} == Elements(ORDER) && |FLAG_MAP| == 4
  {
    assert |FLAG_MAP| == |FLAG_MAP.Keys|;
  }

  lemma NoGroups(env: Env)
    ensures GroupsAccepted(env, FLAG_MAP, map[]) && Index([], GroupKey) == map[] && DistinctKeys([], GroupKey)
  {
  }

  lemma AcceptsIsNoError(definitions: map<string, Definition>, max: nat, order: seq<string>)
    requires Elements(order) == definitions.Keys && AllResolve(definitions)
    requires Closed(GraphOf(definitions)) && Accepts(GraphOf(definitions), max, order)
    ensures GraphVerdict(definitions, max, order) == None
  {
  }

  lemma FlagsAreAccepted(env: Env)
    requires TwoDeep(env.limits)
    ensures Elements(ORDER) == FLAG_MAP.Keys && GraphAccepted(env, FLAG_MAP, map[], ORDER)
  {
    hide *;
    FlagsAreValid(env);
    FlagsResolve();
    NoGroups(env);
    FlagGraph();
    DeclaredAccepted();
    DepthOf(env.limits);
    AcceptsIsNoError(FLAG_MAP, env.limits.maxEvaluationDepth, ORDER);
    AcceptedFrom(env, FLAG_MAP, map[], ORDER);
  }

  lemma DepthOf(limits: Limits)
    requires TwoDeep(limits)
    ensures limits.maxEvaluationDepth == 2 && limits.maxFeatures >= 4 && ORDER == ["a", "b", "c", "d"]
  {
  }

  lemma AcceptedFrom(env: Env, definitions: map<string, Definition>, gs: Groups, order: seq<string>)
    requires Elements(order) == definitions.Keys && |definitions| <= env.limits.maxFeatures && DefinitionsValid(env, definitions)
    requires GraphVerdict(definitions, env.limits.maxEvaluationDepth, order) == None && GroupsAccepted(env, definitions, gs)
    ensures GraphAccepted(env, definitions, gs, order)
  {
  }

  lemma FlagsAreExportable(env: Env)
    requires TwoDeep(env.limits)
    ensures Exportable(env, FLAGS, [], ORDER)
  {
    FlagsAreIndexed();
    FlagsAreValid(env);
    FlagsAreAccepted(env);
    NoGroups(env);
    hide DistinctKeys, Index, NoCustom, GraphAccepted, DefinitionsValid, GroupsAccepted;
  }

  /**
   * With a chain beyond the bound, arranging dependencies can turn acceptance into a depth report: one and the same
   * feature order accepts these four flags as declared, and rejects the document they are exported to.
   */
  lemma ArrangingCanExceedDepth(env: Env)
    requires TwoDeep(env.limits)
    ensures ListAccepted(env, FLAGS, [], ORDER) && EncodedDocument(FLAGS, []).Ok?
    ensures var back := DecodedDocument(EncodedDocument(FLAGS, []).value);
            back.Ok? && !ListAccepted(env, back.value.definitions, back.value.groups, ORDER)
  {
    hide EncodedDocument, DecodedDocument, NormalCatalog, ListAccepted, GraphOf, NormalDefinitions, Index, Visit, VisitAll;
    FlagsAreExportable(env);
    FlagsAreIndexed();
    FlagsResolve();
    ArrangedGraph();
    ArrangedRejected();
    ExportComesBack(env, FLAGS, [], ORDER);
  }

  // ---- Answers ----

  lemma DirectNeedIsUnmet(env: Env, s: Snapshot, ctx: Context)
    requires s.definitions == FLAG_MAP && AllResolve(s.definitions)
    ensures Denote(env, s, "a", ctx, 2) == Selected(DefaultSelection(A, DependencyFailed, UNMET))
  {
    assert Denote(env, s, "d", ctx, 0) == Selected(DefaultSelection(D, Inactive, []));
    assert DependenciesOf(env, s, "c", 0, ctx, 1) == Unmet;
    assert Denote(env, s, "c", ctx, 1) == Selected(DefaultSelection(C, DependencyFailed, UNMET));
    assert DependenciesOf(env, s, "a", 0, ctx, 2) == Unmet;
  }

  lemma ArrangedNeedIsTooDeep(env: Env, s: Snapshot, ctx: Context)
    requires s.definitions.Keys == FLAG_MAP.Keys && AllResolve(s.definitions)
    requires s.definitions["a"].lifecycle == Active && s.definitions["a"].dependencies == [ON_B, ON_C]
    requires s.definitions["b"].lifecycle == Active && s.definitions["b"].dependencies == [ON_C]
    requires s.definitions["c"].lifecycle == Active && s.definitions["c"].dependencies == [ON_D]
    ensures Denote(env, s, "a", ctx, 2) == Failed(EvaluationTooDeep)
  {
    assert Denote(env, s, "d", ctx, -1) == Failed(EvaluationTooDeep);
    assert DependenciesOf(env, s, "c", 0, ctx, 0) == Broken(EvaluationTooDeep);
    assert Denote(env, s, "c", ctx, 0) == Failed(EvaluationTooDeep);
    assert DependenciesOf(env, s, "b", 0, ctx, 1) == Broken(EvaluationTooDeep);
    assert Denote(env, s, "b", ctx, 1) == Failed(EvaluationTooDeep);
    assert DependenciesOf(env, s, "a", 0, ctx, 2) == Broken(EvaluationTooDeep);
  }

  const DECLARED_FLAGS := Snapshot(FLAG_MAP, map[], "")

  lemma FlagIsDeep(s: Snapshot)
    requires s.definitions == FLAG_MAP && AllResolve(s.definitions)
    ensures !Shallow(s, "a", 2)
  {
    assert !Shallow(s, "d", -1);
    assert s.definitions["c"].dependencies[0].featureKey == "d" && !Shallow(s, "c", 0);
    assert s.definitions["b"].dependencies[0].featureKey == "c" && !Shallow(s, "b", 1);
    assert s.definitions["a"].dependencies[1].featureKey == "b";
  }

  lemma ArrangedFlags()
    ensures var n := NormalDefinitions(FLAG_MAP);
            && n.Keys == FLAG_MAP.Keys
            && n["a"].lifecycle == Active && n["a"].dependencies == [ON_B, ON_C]
            && n["b"].lifecycle == Active && n["b"].dependencies == [ON_C]
            && n["c"].lifecycle == Active && n["c"].dependencies == [ON_D]
  {
    hide Sort, NormalDefinition;
    ArrangedNeeds();
    NormalFlag(A);
    NormalFlag(B);
    NormalFlag(C);
  }

  /**
   * The requested feature's own chains have to fit for answers to survive: the first flag answers its default as
   * declared, because a shallow dependency is unmet, and fails as arranged, because a deep one is tried first.
   */
  lemma ArrangingCanChangeAnswers(env: Env, ctx: Context)
    ensures var s, n := DECLARED_FLAGS, NormalSnapshot(DECLARED_FLAGS);
            && AllResolve(s.definitions) && AllResolve(n.definitions) && "a" in s.definitions && "a" in n.definitions
            && !Shallow(s, "a", 2)
            && Denote(env, s, "a", ctx, 2).Selected? && Denote(env, n, "a", ctx, 2) == Failed(EvaluationTooDeep)
  {
    hide Denote, Shallow, NormalDefinition, AllResolve;
    FlagsResolve();
    NormalAllResolve(FLAG_MAP);
    FlagIsDeep(DECLARED_FLAGS);
    DirectNeedIsUnmet(env, DECLARED_FLAGS, ctx);
    ArrangedFlags();
    ArrangedNeedIsTooDeep(env, NormalSnapshot(DECLARED_FLAGS), ctx);
  }
}
