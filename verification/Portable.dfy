/** Whole documents: export, import, and what survives the trip. */
module Portable {
  import opened Ordering
  import opened Keyed
  import opened Model
  import opened GroupForest
  import opened DependencyGraph
  import opened Evaluator
  import opened Codec
  import opened CodecMeaning

  function EncodedDocument(definitions: seq<Definition>, groups: seq<Group>): (r: Result<DocumentWire>) {
    var features := MapAll(EncodedDefinition, SortOn(definitions, DefinitionKey));
    if features.Err? then Err(features.error)
    else
      var encoded := MapAll(EncodedGroup, SortOn(groups, GroupKey));
      if encoded.Err? then Err(encoded.error) else Ok(DocumentWire(FORMAT, VERSION, features.value, encoded.value))
  }

  datatype Catalog = Catalog(definitions: seq<Definition>, groups: seq<Group>)

  function DecodedDocument(document: DocumentWire): (r: Result<Catalog>) {
    if document.format != FORMAT || document.version != VERSION then Err(UnsupportedDocument)
    else
      var definitions := MapAll(DecodedDefinition, document.features);
      if definitions.Err? then Err(definitions.error)
      else
        var groups := MapAll(DecodedGroup, document.groups);
        if groups.Err? then Err(groups.error) else Ok(Catalog(definitions.value, groups.value))
  }

  // ---- The loops ----

  method EncodeFeatures(definitions: seq<Definition>) returns (r: Result<seq<DefinitionWire>>)
    ensures r == MapAll(EncodedDefinition, definitions)
  {
    var out: seq<DefinitionWire> := [];
    for i := 0 to |definitions|
      invariant Mapped(EncodedDefinition, definitions, i, out)
    {
      var wire := EncodeDefinition(definitions[i]);
      MapOne(EncodedDefinition, definitions, i, out, wire);
      if wire.Err? { return Err(wire.error); }
      out := out + [wire.value];
    }
    MapEnd(EncodedDefinition, definitions, out);
    return Ok(out);
  }

  method EncodeGroups(groups: seq<Group>) returns (r: Result<seq<GroupWire>>)
    ensures r == MapAll(EncodedGroup, groups)
  {
    var out: seq<GroupWire> := [];
    for i := 0 to |groups|
      invariant Mapped(EncodedGroup, groups, i, out)
    {
      var wire := EncodeGroup(groups[i]);
      MapOne(EncodedGroup, groups, i, out, wire);
      if wire.Err? { return Err(wire.error); }
      out := out + [wire.value];
    }
    MapEnd(EncodedGroup, groups, out);
    return Ok(out);
  }

  method DecodeFeatures(wires: seq<DefinitionWire>) returns (r: Result<seq<Definition>>)
    ensures r == MapAll(DecodedDefinition, wires)
  {
    var out: seq<Definition> := [];
    for i := 0 to |wires|
      invariant Mapped(DecodedDefinition, wires, i, out)
    {
      var definition := DecodeDefinition(wires[i]);
      MapOne(DecodedDefinition, wires, i, out, definition);
      if definition.Err? { return Err(definition.error); }
      out := out + [definition.value];
    }
    MapEnd(DecodedDefinition, wires, out);
    return Ok(out);
  }

  method DecodeGroups(wires: seq<GroupWire>) returns (r: Result<seq<Group>>)
    ensures r == MapAll(DecodedGroup, wires)
  {
    var out: seq<Group> := [];
    for i := 0 to |wires|
      invariant Mapped(DecodedGroup, wires, i, out)
    {
      var group := DecodeGroup(wires[i]);
      MapOne(DecodedGroup, wires, i, out, group);
      if group.Err? { return Err(group.error); }
      out := out + [group.value];
    }
    MapEnd(DecodedGroup, wires, out);
    return Ok(out);
  }

  method Export(env: Env, definitions: seq<Definition>, groups: seq<Group>)
    returns (r: Result<DocumentWire>, ghost order: seq<string>)
    ensures Elements(order) == Index(definitions, DefinitionKey).Keys
    ensures r == if ListAccepted(env, definitions, groups, order) then EncodedDocument(definitions, groups) else Err(Rejected)
  {
    var snapshot;
    snapshot, order := NewSnapshotWithGroups(env, definitions, groups);
    if snapshot == None { return Err(Rejected), order; }
    var features := EncodeFeatures(SortOn(definitions, DefinitionKey));
    if features.Err? { return Err(features.error), order; }
    var encoded := EncodeGroups(SortOn(groups, GroupKey));
    if encoded.Err? { return Err(encoded.error), order; }
    return Ok(DocumentWire(FORMAT, VERSION, features.value, encoded.value)), order;
  }

  method Import(env: Env, document: DocumentWire) returns (r: Result<Catalog>, ghost order: seq<string>)
    ensures DecodedDocument(document).Err? ==> r == DecodedDocument(document)
    ensures DecodedDocument(document).Ok? ==>
              var c := DecodedDocument(document).value;
              && Elements(order) == Index(c.definitions, DefinitionKey).Keys
              && r == if ListAccepted(env, c.definitions, c.groups, order) then Ok(c) else Err(Rejected)
  {
    order := [];
    if document.format != FORMAT || document.version != VERSION { return Err(UnsupportedDocument), order; }
    var definitions := DecodeFeatures(document.features);
    if definitions.Err? { return Err(definitions.error), order; }
    var groups := DecodeGroups(document.groups);
    if groups.Err? { return Err(groups.error), order; }
    var snapshot;
    snapshot, order := NewSnapshotWithGroups(env, definitions.value, groups.value);
    if snapshot == None { return Err(Rejected), order; }
    return Ok(Catalog(definitions.value, groups.value)), order;
  }

  // ---- Arrangement does not matter ----

  /** Listing the same features and groups in another order exports the same document. */
  lemma ExportIgnoresArrangement(
    env: Env, a: seq<Definition>, b: seq<Definition>, ga: seq<Group>, gb: seq<Group>, order: seq<string>)
    requires multiset(a) == multiset(b) && multiset(ga) == multiset(gb)
    requires ListAccepted(env, a, ga, order)
    ensures ListAccepted(env, b, gb, order) && EncodedDocument(a, ga) == EncodedDocument(b, gb)
  {
    hide GraphAccepted, DistinctKeys, EncodedDefinition, EncodedGroup, MapAll, Index, SortOn;
    IndexOfPermutation(a, b, DefinitionKey);
    IndexOfPermutation(ga, gb, GroupKey);
    SortOnForgetsOrder(a, b, DefinitionKey);
    SortOnForgetsOrder(ga, gb, GroupKey);
  }

  // ---- There and back ----

  lemma ValidIsCarried(env: Env, d: Definition)
    requires ValidDefinition(env, d) && NoCustom(d.strategies)
    ensures CarriedDefinition(d)
  {
    hide CanonicalDecimal, ValidTargets, ValidLabels, ValidKey, ValidWindow;
  }

  lemma ValidGroupIsCarried(env: Env, g: Group)
    requires ValidGroup(env, g) && NoCustom(g.strategies)
    ensures AllCarried(g.strategies)
  {
    hide CanonicalDecimal, ValidTargets, ValidLabels, ValidKey, ValidWindow;
  }

  lemma FeaturesRoundTrip(definitions: seq<Definition>)
    requires forall i :: 0 <= i < |definitions| ==> CarriedDefinition(definitions[i])
    ensures MapAll(EncodedDefinition, definitions).Ok?
    ensures MapAll(DecodedDefinition, MapAll(EncodedDefinition, definitions).value) == Ok(Each(NormalDefinition, definitions))
  {
    forall i | 0 <= i < |definitions|
      ensures EncodedDefinition(definitions[i]).Ok?
              && DecodedDefinition(EncodedDefinition(definitions[i]).value) == Ok(NormalDefinition(definitions[i]))
    {
      DefinitionRoundTrip(definitions[i]);
    }
    hide EncodedDefinition, DecodedDefinition, NormalDefinition;
    MapAllSucceeds(DecodedDefinition, MapAll(EncodedDefinition, definitions).value, Each(NormalDefinition, definitions));
  }

  lemma GroupsRoundTrip(groups: seq<Group>)
    requires forall i :: 0 <= i < |groups| ==> AllCarried(groups[i].strategies)
    ensures MapAll(EncodedGroup, groups).Ok?
    ensures MapAll(DecodedGroup, MapAll(EncodedGroup, groups).value) == Ok(Each(NormalGroup, groups))
  {
    forall i | 0 <= i < |groups|
      ensures EncodedGroup(groups[i]).Ok? && DecodedGroup(EncodedGroup(groups[i]).value) == Ok(NormalGroup(groups[i]))
    {
      GroupRoundTrip(groups[i]);
    }
    hide EncodedGroup, DecodedGroup, NormalGroup;
    MapAllSucceeds(DecodedGroup, MapAll(EncodedGroup, groups).value, Each(NormalGroup, groups));
  }

  function MapValues<T>(f: T -> T, m: map<string, T>): (r: map<string, T>) { map k | k in m :: f(m[k]) }

  lemma MapValuesGrow<T>(f: T -> T, m: map<string, T>, k: string, v: T)
    ensures MapValues(f, m[k := v]) == MapValues(f, m)[k := f(v)]
  {
  }

  lemma EachSnoc<T>(f: T -> T, items: seq<T>)
    requires items != []
    ensures Each(f, items) == Each(f, items[..|items| - 1]) + [f(items[|items| - 1])]
  {
  }

  lemma {:induction false} IndexEach<T>(items: seq<T>, key: T -> string, f: T -> T)
    requires forall i :: 0 <= i < |items| ==> key(f(items[i])) == key(items[i])
    ensures Index(Each(f, items), key) == MapValues(f, Index(items, key))
  {
    if items != [] {
      var front, last := items[..|items| - 1], items[|items| - 1];
      IndexEach(front, key, f);
      EachSnoc(f, items);
      MapValuesGrow(f, Index(front, key), key(last), last);
      IndexSnoc(Each(f, front), f(last), key);
    }
  }

  lemma EachDistinct<T>(items: seq<T>, key: T -> string, f: T -> T)
    requires DistinctKeys(items, key) && forall i :: 0 <= i < |items| ==> key(f(items[i])) == key(items[i])
    ensures DistinctKeys(Each(f, items), key)
  {
    var image := Each(f, items);
    forall i, j | 0 <= i < j < |image| ensures key(image[i]) != key(image[j]) {
      assert key(image[i]) == key(items[i]) && key(image[j]) == key(items[j]);
    }
  }

  ghost predicate Exportable(env: Env, definitions: seq<Definition>, groups: seq<Group>, order: seq<string>) {
    && ListAccepted(env, definitions, groups, order)
    && (forall i :: 0 <= i < |definitions| ==> NoCustom(definitions[i].strategies))
    && (forall i :: 0 <= i < |groups| ==> NoCustom(groups[i].strategies))
  }

  ghost predicate AllCarry(definitions: seq<Definition>, groups: seq<Group>) {
    && (forall d :: d in definitions ==> CarriedDefinition(d))
    && (forall g :: g in groups ==> AllCarried(g.strategies))
  }

  lemma ListedAreCarried(env: Env, definitions: seq<Definition>, groups: seq<Group>, order: seq<string>)
    requires Exportable(env, definitions, groups, order)
    ensures AllCarry(definitions, groups)
  {
    IndexDistinct(definitions, DefinitionKey);
    IndexDistinct(groups, GroupKey);
    forall i | 0 <= i < |definitions| ensures CarriedDefinition(definitions[i]) {
      assert Index(definitions, DefinitionKey)[definitions[i].key] == definitions[i];
      ValidIsCarried(env, definitions[i]);
    }
    forall i | 0 <= i < |groups| ensures AllCarried(groups[i].strategies) {
      assert Index(groups, GroupKey)[groups[i].key] == groups[i];
      ValidGroupIsCarried(env, groups[i]);
    }
  }

  function NormalCatalog(definitions: seq<Definition>, groups: seq<Group>): (c: Catalog) {
    Catalog(Each(NormalDefinition, SortOn(definitions, DefinitionKey)), Each(NormalGroup, SortOn(groups, GroupKey)))
  }

  lemma SortedAre<T>(items: seq<T>, key: T -> string)
    ensures forall x :: x in SortOn(items, key) <==> x in items
  {
    SameElements(items, SortOn(items, key));
  }

  /** A list without custom strategies exports, and what it exports decodes to its normal form. */
  lemma DocumentRoundTrip(definitions: seq<Definition>, groups: seq<Group>)
    requires AllCarry(definitions, groups)
    ensures EncodedDocument(definitions, groups).Ok?
    ensures DecodedDocument(EncodedDocument(definitions, groups).value) == Ok(NormalCatalog(definitions, groups))
  {
    SortedAre(definitions, DefinitionKey);
    SortedAre(groups, GroupKey);
    hide CarriedDefinition, AllCarried, EncodedDefinition, DecodedDefinition, EncodedGroup, DecodedGroup;
    FeaturesRoundTrip(SortOn(definitions, DefinitionKey));
    GroupsRoundTrip(SortOn(groups, GroupKey));
  }

  /** Mapping every item of the arranged list maps every entry of its index. */
  lemma ArrangedIndex<T>(items: seq<T>, key: T -> string, f: T -> T)
    requires DistinctKeys(items, key) && forall x :: x in items ==> key(f(x)) == key(x)
    ensures var r := Each(f, SortOn(items, key));
            DistinctKeys(r, key) && Index(r, key) == MapValues(f, Index(items, key))
  {
    SortedAre(items, key);
    var sorted := SortOn(items, key);
    forall i | 0 <= i < |sorted| ensures key(f(sorted[i])) == key(sorted[i]) {
      var x := sorted[i];
      assert x in multiset(sorted) && x in multiset(items);
    }
    hide DistinctKeys;
    IndexOfPermutation(items, sorted, key);
    IndexEach(sorted, key, f);
    EachDistinct(sorted, key, f);
  }

  lemma NormalDefinitionsIndex(definitions: seq<Definition>)
    requires DistinctKeys(definitions, DefinitionKey)
    ensures var ds := Each(NormalDefinition, SortOn(definitions, DefinitionKey));
            DistinctKeys(ds, DefinitionKey)
            && Index(ds, DefinitionKey) == NormalDefinitions(Index(definitions, DefinitionKey))
  {
    hide DistinctKeys;
    ArrangedIndex(definitions, DefinitionKey, NormalDefinition);
    assert MapValues(NormalDefinition, Index(definitions, DefinitionKey)) == NormalDefinitions(Index(definitions, DefinitionKey));
  }

  lemma NormalGroupsIndex(groups: seq<Group>)
    requires DistinctKeys(groups, GroupKey)
    ensures var gs := Each(NormalGroup, SortOn(groups, GroupKey));
            DistinctKeys(gs, GroupKey) && Index(gs, GroupKey) == NormalGroups(Index(groups, GroupKey))
  {
    hide DistinctKeys;
    ArrangedIndex(groups, GroupKey, NormalGroup);
    assert MapValues(NormalGroup, Index(groups, GroupKey)) == NormalGroups(Index(groups, GroupKey));
  }

  ghost function SnapshotOf(definitions: seq<Definition>, groups: seq<Group>): (s: Snapshot) {
    Snapshot(Index(definitions, DefinitionKey), Index(groups, GroupKey), "")
  }

  lemma NormalCatalogSnapshot(definitions: seq<Definition>, groups: seq<Group>)
    requires DistinctKeys(definitions, DefinitionKey) && DistinctKeys(groups, GroupKey)
    ensures var c := NormalCatalog(definitions, groups);
            && DistinctKeys(c.definitions, DefinitionKey) && DistinctKeys(c.groups, GroupKey)
            && SnapshotOf(c.definitions, c.groups) == NormalSnapshot(SnapshotOf(definitions, groups))
  {
    NormalDefinitionsIndex(definitions);
    NormalGroupsIndex(groups);
  }

  /** Every feature and group of the list is free of custom strategies. */
  lemma ExportableIsBuiltIn(env: Env, definitions: seq<Definition>, groups: seq<Group>, order: seq<string>)
    requires Exportable(env, definitions, groups, order)
    ensures BuiltIn(SnapshotOf(definitions, groups))
  {
    var s := SnapshotOf(definitions, groups);
    forall k, i | k in s.definitions && 0 <= i < |s.definitions[k].strategies| ensures !s.definitions[k].strategies[i].Custom? {
      assert s.definitions[k] in definitions;
    }
    forall k, i | k in s.groups && 0 <= i < |s.groups[k].strategies| ensures !s.groups[k].strategies[i].Custom? {
      assert s.groups[k] in groups;
    }
  }

  lemma BackIsSound(env: Env, definitions: seq<Definition>, groups: seq<Group>, order: seq<string>)
    requires ListAccepted(env, definitions, groups, order)
    ensures Sound(env, SnapshotOf(definitions, groups)) && Sound(env, NormalSnapshot(SnapshotOf(definitions, groups)))
  {
    AcceptedIsSound(env, Index(definitions, DefinitionKey), Index(groups, GroupKey), "", order);
    NormalSound(env, SnapshotOf(definitions, groups));
  }

  /** The dependency graph a document carries: every feature's dependencies in their arranged order. */
  ghost function DocumentGraph(definitions: seq<Definition>): (g: Graph) { GraphOf(NormalDefinitions(Index(definitions, DefinitionKey))) }

  /** The document is written, reads back as the normal catalog, and only the visiting order can refuse it. */
  ghost predicate ComesBack(env: Env, definitions: seq<Definition>, groups: seq<Group>) {
    var c, document := NormalCatalog(definitions, groups), EncodedDocument(definitions, groups);
    && document.Ok? && DecodedDocument(document.value) == Ok(c) && Closed(DocumentGraph(definitions))
    && DocumentGraph(definitions).Keys == Index(definitions, DefinitionKey).Keys
    && SnapshotOf(c.definitions, c.groups) == NormalSnapshot(SnapshotOf(definitions, groups))
    && OrdersDecide(env, definitions, c)
  }

  ghost predicate OrdersDecide(env: Env, definitions: seq<Definition>, c: Catalog)
    requires Closed(DocumentGraph(definitions))
  {
    forall importOrder :: Elements(importOrder) == Index(definitions, DefinitionKey).Keys ==>
      (ListAccepted(env, c.definitions, c.groups, importOrder)
       <==> Accepts(DocumentGraph(definitions), env.limits.maxEvaluationDepth, importOrder))
  }

  lemma BackIsAccepted(env: Env, definitions: seq<Definition>, groups: seq<Group>, importOrder: seq<string>)
    requires DistinctKeys(definitions, DefinitionKey) && DistinctKeys(groups, GroupKey)
    requires Sound(env, NormalSnapshot(SnapshotOf(definitions, groups)))
    requires |Index(definitions, DefinitionKey)| <= env.limits.maxFeatures
    requires Elements(importOrder) == Index(definitions, DefinitionKey).Keys
    ensures Closed(DocumentGraph(definitions))
    ensures var c := NormalCatalog(definitions, groups);
            ListAccepted(env, c.definitions, c.groups, importOrder)
            <==> Accepts(DocumentGraph(definitions), env.limits.maxEvaluationDepth, importOrder)
  {
    hide Sound, GraphAccepted, Accepts, DistinctKeys;
    NormalCatalogSnapshot(definitions, groups);
    var n := NormalSnapshot(SnapshotOf(definitions, groups));
    assert n.definitions.Keys == Index(definitions, DefinitionKey).Keys;
    assert |n.definitions| == |n.definitions.Keys| && |Index(definitions, DefinitionKey)| == |Index(definitions, DefinitionKey).Keys|;
    AcceptedExactlyInOrders(env, n.definitions, n.groups, importOrder);
  }

  lemma ArrangedIsClosed(env: Env, definitions: seq<Definition>, groups: seq<Group>)
    requires Sound(env, NormalSnapshot(SnapshotOf(definitions, groups)))
    ensures Closed(DocumentGraph(definitions)) && DocumentGraph(definitions).Keys == Index(definitions, DefinitionKey).Keys
  {
    ResolvedIsClosed(NormalDefinitions(Index(definitions, DefinitionKey)));
  }

  lemma ComesBackFrom(env: Env, definitions: seq<Definition>, groups: seq<Group>)
    requires DistinctKeys(definitions, DefinitionKey) && DistinctKeys(groups, GroupKey) && AllCarry(definitions, groups)
    requires Sound(env, NormalSnapshot(SnapshotOf(definitions, groups)))
    requires |Index(definitions, DefinitionKey)| <= env.limits.maxFeatures
    ensures ComesBack(env, definitions, groups)
  {
    hide *;
    DocumentRoundTrip(definitions, groups);
    NormalCatalogSnapshot(definitions, groups);
    ArrangedIsClosed(env, definitions, groups);
    OrdersDecideFrom(env, definitions, groups);
    IsBack(env, definitions, groups);
  }

  lemma IsBack(env: Env, definitions: seq<Definition>, groups: seq<Group>)
    requires EncodedDocument(definitions, groups).Ok?
    requires DecodedDocument(EncodedDocument(definitions, groups).value) == Ok(NormalCatalog(definitions, groups))
    requires Closed(DocumentGraph(definitions)) && DocumentGraph(definitions).Keys == Index(definitions, DefinitionKey).Keys
    requires var c := NormalCatalog(definitions, groups);
             SnapshotOf(c.definitions, c.groups) == NormalSnapshot(SnapshotOf(definitions, groups)) && OrdersDecide(env, definitions, c)
    ensures ComesBack(env, definitions, groups)
  {
    hide EncodedDocument, DecodedDocument, NormalCatalog, OrdersDecide, DocumentGraph, SnapshotOf, NormalSnapshot, Closed;
  }

  lemma OrdersDecideFrom(env: Env, definitions: seq<Definition>, groups: seq<Group>)
    requires DistinctKeys(definitions, DefinitionKey) && DistinctKeys(groups, GroupKey)
    requires Sound(env, NormalSnapshot(SnapshotOf(definitions, groups)))
    requires |Index(definitions, DefinitionKey)| <= env.limits.maxFeatures && Closed(DocumentGraph(definitions))
    ensures OrdersDecide(env, definitions, NormalCatalog(definitions, groups))
  {
    hide Sound, Accepts, DistinctKeys, ListAccepted, NormalCatalog, DocumentGraph;
    forall importOrder | Elements(importOrder) == Index(definitions, DefinitionKey).Keys
      ensures var c := NormalCatalog(definitions, groups);
              ListAccepted(env, c.definitions, c.groups, importOrder)
              <==> Accepts(DocumentGraph(definitions), env.limits.maxEvaluationDepth, importOrder)
    {
      BackIsAccepted(env, definitions, groups, importOrder);
    }
  }

  lemma ExportComesBack(env: Env, definitions: seq<Definition>, groups: seq<Group>, order: seq<string>)
    requires Exportable(env, definitions, groups, order)
    ensures ComesBack(env, definitions, groups)
  {
    ListedAreCarried(env, definitions, groups, order);
    BackIsSound(env, definitions, groups, order);
    hide ComesBack, Sound, AllCarry;
    ComesBackFrom(env, definitions, groups);
  }

  /**
   * Export followed by import: the document decodes; the importer accepts it exactly in the orders that accept the
   * arranged graph; and every request is answered as before, except that it may be cut short by the depth bound where
   * it was not, or the other way round. Neither happens to a feature whose own chains fit the bound.
   */
  lemma PortableRoundTrip(
    env: Env, definitions: seq<Definition>, groups: seq<Group>, order: seq<string>, importOrder: seq<string>,
    key: string, expected: Type, ctx: Context)
    requires Exportable(env, definitions, groups, order)
    requires Elements(importOrder) == Index(definitions, DefinitionKey).Keys
    ensures EncodedDocument(definitions, groups).Ok? && Closed(DocumentGraph(definitions))
    ensures var back := DecodedDocument(EncodedDocument(definitions, groups).value);
            && back.Ok?
            && (ListAccepted(env, back.value.definitions, back.value.groups, importOrder)
                <==> Accepts(DocumentGraph(definitions), env.limits.maxEvaluationDepth, importOrder))
            && AllResolve(Index(definitions, DefinitionKey))
            && AllResolve(Index(back.value.definitions, DefinitionKey))
            && var before := Answer(env, SnapshotOf(definitions, groups), key, expected, ctx);
               var after := Answer(env, SnapshotOf(back.value.definitions, back.value.groups), key, expected, ctx);
               && (after == before <==> (CutShort(after) <==> CutShort(before)))
               && (WithinReach(env, SnapshotOf(definitions, groups), key) ==> after == before && !CutShort(before))
  {
    ExportComesBack(env, definitions, groups, order);
    ExportableIsBuiltIn(env, definitions, groups, order);
    BackIsSound(env, definitions, groups, order);
    AnswersComeBack(env, SnapshotOf(definitions, groups), key, expected, ctx);
    hide Accepts, ListAccepted, Answer, WithinReach, Sound, NormalCatalog, EncodedDocument, DecodedDocument, CutShort;
  }

  lemma AnswersComeBack(env: Env, s: Snapshot, key: string, expected: Type, ctx: Context)
    requires Sound(env, s) && Sound(env, NormalSnapshot(s)) && BuiltIn(s)
    ensures AllResolve(s.definitions) && AllResolve(NormalSnapshot(s).definitions)
    ensures var before, after := Answer(env, s, key, expected, ctx), Answer(env, NormalSnapshot(s), key, expected, ctx);
            && (after == before <==> (CutShort(after) <==> CutShort(before)))
            && (WithinReach(env, s, key) ==> after == before && !CutShort(before))
  {
    hide WithinReach, Answer, Tame;
    SoundBuiltInIsTame(env, s, ctx);
    NormalFormKeepsAnswers(env, s, key, expected, ctx);
  }

  lemma NoEdgesInNormalForm(definitions: map<string, Definition>)
    requires forall k :: k in GraphOf(definitions) ==> GraphOf(definitions)[k] == []
    ensures forall k :: k in GraphOf(NormalDefinitions(definitions)) ==> GraphOf(NormalDefinitions(definitions))[k] == []
  {
    forall k | k in definitions ensures GraphOf(NormalDefinitions(definitions))[k] == [] {
      assert GraphOf(definitions)[k] == [] && |definitions[k].dependencies| == 0;
      SameDependencies(definitions[k]);
    }
  }

  lemma SomeArrangedOrder(env: Env, definitions: map<string, Definition>, order: seq<string>) returns (other: seq<string>)
    requires Elements(order) == definitions.Keys && Closed(GraphOf(definitions)) && Closed(GraphOf(NormalDefinitions(definitions)))
    requires Accepts(GraphOf(definitions), env.limits.maxEvaluationDepth, order)
    ensures Elements(other) == definitions.Keys
    ensures Accepts(GraphOf(NormalDefinitions(definitions)), env.limits.maxEvaluationDepth, other)
  {
    hide Accepts;
    var max := env.limits.maxEvaluationDepth;
    SomeOrderAcceptsExactlyWhen(GraphOf(definitions), max);
    NormalGraph(definitions, max);
    if max == 0 { NoEdgesInNormalForm(definitions); }
    SomeOrderAcceptsExactlyWhen(GraphOf(NormalDefinitions(definitions)), max);
    var arranged := GraphOf(NormalDefinitions(definitions));
    other :| Elements(other) == arranged.Keys && Accepts(arranged, max, other);
  }

  lemma AcceptedListAccepts(env: Env, definitions: seq<Definition>, groups: seq<Group>, order: seq<string>)
    requires ListAccepted(env, definitions, groups, order)
    ensures var g := GraphOf(Index(definitions, DefinitionKey)); Closed(g) && Accepts(g, env.limits.maxEvaluationDepth, order)
  {
    var index := Index(definitions, DefinitionKey);
    AcceptedIsSound(env, index, Index(groups, GroupKey), "", order);
    AcceptedExactlyInOrders(env, index, Index(groups, GroupKey), order);
  }

  /** Whoever exports can import: there is always a visiting order in which the importer accepts the document. */
  lemma ExportImportsInSomeOrder(env: Env, definitions: seq<Definition>, groups: seq<Group>, order: seq<string>)
    returns (importOrder: seq<string>)
    requires Exportable(env, definitions, groups, order)
    ensures EncodedDocument(definitions, groups).Ok?
    ensures var back := DecodedDocument(EncodedDocument(definitions, groups).value);
            back.Ok? && ListAccepted(env, back.value.definitions, back.value.groups, importOrder)
  {
    ExportComesBack(env, definitions, groups, order);
    AcceptedListAccepts(env, definitions, groups, order);
    hide Accepts, ListAccepted, NormalCatalog, EncodedDocument, DecodedDocument;
    importOrder := SomeArrangedOrder(env, Index(definitions, DefinitionKey), order);
  }

  /**
   * The importer accepts an exported document whatever order it visits features in exactly when each feature of the
   * arranged graph is accepted when visited first. Chains within the bound are enough for that.
   */
  lemma ExportImportsInEveryOrderExactlyWhen(env: Env, definitions: seq<Definition>, groups: seq<Group>, order: seq<string>)
    requires Exportable(env, definitions, groups, order)
    ensures ComesBack(env, definitions, groups)
    ensures var c, max := NormalCatalog(definitions, groups), env.limits.maxEvaluationDepth;
            && ((forall importOrder :: Elements(importOrder) == Index(definitions, DefinitionKey).Keys ==>
                   ListAccepted(env, c.definitions, c.groups, importOrder))
                <==> EachAcceptedFirst(DocumentGraph(definitions), max))
            && (WithinDepth(GraphOf(Index(definitions, DefinitionKey)), max) ==> EachAcceptedFirst(DocumentGraph(definitions), max))
  {
    ExportComesBack(env, definitions, groups, order);
    AcceptedListAccepts(env, definitions, groups, order);
    var g, max := DocumentGraph(definitions), env.limits.maxEvaluationDepth;
    EveryOrderIsSound(GraphOf(Index(definitions, DefinitionKey)), max, order);
    NormalGraph(Index(definitions, DefinitionKey), max);
    EveryOrderAcceptsExactlyWhen(g, max);
    hide EachAcceptedFirst, ListAccepted, NormalCatalog, EncodedDocument, DecodedDocument;
    if WithinDepth(g, max) {
      forall o | Elements(o) == g.Keys ensures Accepts(g, max, o) { EveryOrderIsSound(g, max, o); }
    }
  }

  // ---- Writing what was read ----

  lemma EachSorted<T>(items: seq<T>, key: T -> string, f: T -> T)
    requires DistinctKeys(items, key) && KeySorted(items, key) && forall x :: x in items ==> key(f(x)) == key(x)
    ensures SortOn(Each(f, items), key) == Each(f, items)
  {
    var image := Each(f, items);
    forall i | 0 <= i < |items| ensures key(image[i]) == key(items[i]) { assert items[i] in items; }
    EachDistinct(items, key, f);
    KeySortedUnique(image, SortOn(image, key), key);
  }

  lemma SameImage<A, B>(f: A -> Result<B>, normal: A -> A, items: seq<A>)
    requires MapAll(f, items).Ok? && forall i :: 0 <= i < |items| ==> f(normal(items[i])) == f(items[i])
    ensures MapAll(f, Each(normal, items)) == MapAll(f, items)
  {
    MapAllSucceeds(f, Each(normal, items), MapAll(f, items).value);
  }

  lemma ReencodedFeatures(definitions: seq<Definition>)
    requires DistinctKeys(definitions, DefinitionKey) && forall d :: d in definitions ==> CarriedDefinition(d)
    ensures var ds := SortOn(definitions, DefinitionKey);
            MapAll(EncodedDefinition, SortOn(Each(NormalDefinition, ds), DefinitionKey)) == MapAll(EncodedDefinition, ds)
  {
    var ds := SortOn(definitions, DefinitionKey);
    SortedAre(definitions, DefinitionKey);
    IndexOfPermutation(definitions, ds, DefinitionKey);
    EachSorted(ds, DefinitionKey, NormalDefinition);
    forall i | 0 <= i < |ds| ensures CarriedDefinition(ds[i]) { assert ds[i] in ds; }
    FeaturesRoundTrip(ds);
    forall i | 0 <= i < |ds| ensures EncodedDefinition(NormalDefinition(ds[i])) == EncodedDefinition(ds[i]) {
      DefinitionRoundTrip(ds[i]);
      ReencodingIsIdentity(ds[i]);
    }
    hide EncodedDefinition, DecodedDefinition, NormalDefinition, DistinctKeys, KeySorted, CarriedDefinition;
    SameImage(EncodedDefinition, NormalDefinition, ds);
  }

  lemma ReencodedGroups(groups: seq<Group>)
    requires DistinctKeys(groups, GroupKey) && forall g :: g in groups ==> AllCarried(g.strategies)
    ensures var gs := SortOn(groups, GroupKey);
            MapAll(EncodedGroup, SortOn(Each(NormalGroup, gs), GroupKey)) == MapAll(EncodedGroup, gs)
  {
    var gs := SortOn(groups, GroupKey);
    SortedAre(groups, GroupKey);
    IndexOfPermutation(groups, gs, GroupKey);
    EachSorted(gs, GroupKey, NormalGroup);
    forall i | 0 <= i < |gs| ensures AllCarried(gs[i].strategies) { assert gs[i] in gs; }
    GroupsRoundTrip(gs);
    forall i | 0 <= i < |gs| ensures EncodedGroup(NormalGroup(gs[i])) == EncodedGroup(gs[i]) {
      GroupRoundTrip(gs[i]);
      ReencodingGroupIsIdentity(gs[i]);
    }
    hide EncodedGroup, DecodedGroup, NormalGroup, DistinctKeys, KeySorted, AllCarried;
    SameImage(EncodedGroup, NormalGroup, gs);
  }

  /** Exporting what was imported gives the same document again. */
  lemma ReencodedDocumentIsIdentity(definitions: seq<Definition>, groups: seq<Group>)
    requires DistinctKeys(definitions, DefinitionKey) && DistinctKeys(groups, GroupKey) && AllCarry(definitions, groups)
    ensures EncodedDocument(definitions, groups).Ok?
    ensures var back := DecodedDocument(EncodedDocument(definitions, groups).value);
            back.Ok? && EncodedDocument(back.value.definitions, back.value.groups) == EncodedDocument(definitions, groups)
  {
    hide CarriedDefinition, AllCarried, DistinctKeys, DecodedDocument, MapAll, SortOn;
    DocumentRoundTrip(definitions, groups);
    ReencodedFeatures(definitions);
    ReencodedGroups(groups);
  }
}
