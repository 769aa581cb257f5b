/** The portable document at the level of its wire records: encoding, decoding and canonical form. */
module Codec {
  import opened Ordering
  import opened Keyed
  import opened Model

  const FORMAT := "go-feature-flags"
  const VERSION := 1

  datatype CodecError = UnsupportedStrategy | InvalidPayload | MissingFactValue | MalformedTime | UnsupportedDocument | Rejected

  datatype Result<+T> = Ok(value: T) | Err(error: CodecError)

  datatype ValueWire = ValueWire(
    typ: Type, boolean: Option<bool>, text: Option<string>, integer: Option<int>, floating: Option<Float64>,
    structured: Option<string>)

  /** The text of an instant: empty, well formed, or not. */
  datatype TimeText = NoTime | At(instant: int) | Malformed

  datatype StrategyWire = StrategyWire(
    kind: string, name: string, variant: string,
    tenants: seq<string>, subjects: seq<string>, environments: seq<string>, attributes: map<string, string>,
    allowTenants: seq<string>, denyTenants: seq<string>, allowSubjects: seq<string>, denySubjects: seq<string>,
    seed: string, threshold: nat, notBefore: TimeText, notAfter: TimeText,
    location: string, windows: seq<WeeklyWindow>, fact: string, equals: Option<ValueWire>)

  datatype DefinitionWire = DefinitionWire(
    key: string, typ: Type, default: ValueWire, variants: map<string, ValueWire>, metadata: map<string, string>,
    owner: string, lifecycle: Lifecycle, dependencies: seq<Dependency>, groups: seq<string>, tags: seq<string>,
    version: nat, strategies: seq<StrategyWire>)

  datatype GroupWire = GroupWire(
    key: string, parent: string, metadata: map<string, string>, owner: string, tags: seq<string>,
    version: nat, strategies: seq<StrategyWire>)

  datatype DocumentWire = DocumentWire(format: string, version: int, features: seq<DefinitionWire>, groups: seq<GroupWire>)

  // ---- Values ----

  function EncodeValue(v: Value): (w: ValueWire) {
    var w := ValueWire(v.Type(), None, None, None, None, None);
    match v
    case BooleanValue(b) => w.(boolean := Some(b))
    case StringValue(t) => w.(text := Some(t))
    case DecimalValue(t) => w.(text := Some(t))
    case IntegerValue(i) => w.(integer := Some(i))
    case FloatValue(f) => w.(floating := Some(f))
    case StructuredValue(bytes) => w.(structured := if bytes == "" then None else Some(bytes))
    case Untyped => w
  }

  function DecodeValue(w: ValueWire): (r: Result<Value>) {
    match w.typ
    case BooleanType => if w.boolean.Some? then Ok(BooleanValue(w.boolean.value)) else Err(InvalidPayload)
    case StringType => if w.text.Some? then Ok(StringValue(w.text.value)) else Err(InvalidPayload)
    case IntegerType => if w.integer.Some? then Ok(IntegerValue(w.integer.value)) else Err(InvalidPayload)
    case FloatType => if w.floating.Some? then Ok(FloatValue(w.floating.value)) else Err(InvalidPayload)
    case DecimalType => if w.text.Some? then Ok(DecimalValue(w.text.value)) else Err(InvalidPayload)
    case StructuredType => if w.structured.Some? then Ok(StructuredValue(w.structured.value)) else Err(InvalidPayload)
    case OtherType(_) => Err(InvalidPayload)
  }

  /** Values that survive the wire: all but the zero value and empty structured bytes. */
  predicate Carried(v: Value) { !v.Untyped? && (v.StructuredValue? ==> v.bytes != "") }

  lemma ValueRoundTrip(v: Value)
    ensures DecodeValue(EncodeValue(v)) == if Carried(v) then Ok(v) else Err(InvalidPayload)
  {
    if Carried(v) { match v { case _ => } }
  }

  // ---- Strategies ----

  const BLANK := StrategyWire("", "", "", [], [], [], map[], [], [], [], [], "", 0, NoTime, NoTime, "", [], "", None)

  function SortStrings(values: seq<string>): (r: seq<string>) { Sort(StringLeq, values) }

  function FormatTime(instant: int): (t: TimeText) { if instant == 0 then NoTime else At(instant) }

  function EncodeStrategy(s: Strategy): (r: Result<StrategyWire>) {
    var w := BLANK.(name := s.name, variant := s.variant);
    match s
    case Exact(_, _, tenants, subjects, environments, attributes) =>
      Ok(w.(kind := "exact", tenants := SortStrings(tenants), subjects := SortStrings(subjects),
            environments := SortStrings(environments), attributes := attributes))
    case Percentage(_, _, seed, threshold) => Ok(w.(kind := "percentage", seed := seed, threshold := threshold))
    case Sets(_, _, allowTenants, denyTenants, allowSubjects, denySubjects) =>
      Ok(w.(kind := "set", allowTenants := SortStrings(allowTenants), denyTenants := SortStrings(denyTenants),
            allowSubjects := SortStrings(allowSubjects), denySubjects := SortStrings(denySubjects)))
    case TimeWindow(_, _, notBefore, notAfter) =>
      Ok(w.(kind := "time_window", notBefore := FormatTime(notBefore), notAfter := FormatTime(notAfter)))
    case Weekly(_, _, location, windows) => Ok(w.(kind := "schedule", location := location, windows := windows))
    case Fact(_, _, fact, equals) => Ok(w.(kind := "fact", fact := fact, equals := Some(EncodeValue(equals))))
    case Custom(_, _, _) => Err(UnsupportedStrategy)
  }

  function ParseTime(t: TimeText): (r: Result<int>) {
    match t
    case NoTime => Ok(0)
    case At(instant) => Ok(instant)
    case Malformed => Err(MalformedTime)
  }

  function DecodeStrategy(w: StrategyWire): (r: Result<Strategy>) {
    if w.kind == "exact" then Ok(Exact(w.name, w.variant, w.tenants, w.subjects, w.environments, w.attributes))
    else if w.kind == "percentage" then Ok(Percentage(w.name, w.variant, w.seed, w.threshold))
    else if w.kind == "set" then Ok(Sets(w.name, w.variant, w.allowTenants, w.denyTenants, w.allowSubjects, w.denySubjects))
    else if w.kind == "time_window" then
      var notBefore, notAfter := ParseTime(w.notBefore), ParseTime(w.notAfter);
      if notBefore.Err? then Err(notBefore.error)
      else if notAfter.Err? then Err(notAfter.error)
      else Ok(TimeWindow(w.name, w.variant, notBefore.value, notAfter.value))
    else if w.kind == "schedule" then Ok(Weekly(w.name, w.variant, w.location, w.windows))
    else if w.kind == "fact" then
      if w.equals == None then Err(MissingFactValue)
      else
        var equals := DecodeValue(w.equals.value);
        if equals.Err? then Err(equals.error) else Ok(Fact(w.name, w.variant, w.fact, equals.value))
    else Err(UnsupportedStrategy)
  }

  /** A strategy with its target sets arranged; strategies are otherwise untouched. */
  function NormalStrategy(s: Strategy): (r: Strategy) {
    match s
    case Exact(_, _, tenants, subjects, environments, _) =>
      s.(tenants := SortStrings(tenants), subjects := SortStrings(subjects), environments := SortStrings(environments))
    case Sets(_, _, allowTenants, denyTenants, allowSubjects, denySubjects) =>
      s.(allowTenants := SortStrings(allowTenants), denyTenants := SortStrings(denyTenants),
         allowSubjects := SortStrings(allowSubjects), denySubjects := SortStrings(denySubjects))
    case _ => s
  }

  predicate CarriedStrategy(s: Strategy) { !s.Custom? && (s.Fact? ==> Carried(s.equals)) }

  lemma StrategyRoundTrip(s: Strategy)
    ensures EncodeStrategy(s) == Err(UnsupportedStrategy) <==> s.Custom?
    ensures !s.Custom? ==>
              EncodeStrategy(s).Ok?
              && DecodeStrategy(EncodeStrategy(s).value)
                 == if CarriedStrategy(s) then Ok(NormalStrategy(s)) else Err(InvalidPayload)
  {
    if s.Fact? { ValueRoundTrip(s.equals); }
  }

  // ---- Lists of records ----

  /** The image of a list, or the first error met. */
  function MapAll<A, B>(f: A -> Result<B>, xs: seq<A>): (r: Result<seq<B>>)
    ensures r.Ok? ==> |r.value| == |xs| && forall i :: 0 <= i < |xs| ==> f(xs[i]) == Ok(r.value[i])
    ensures r.Err? ==> exists i :: 0 <= i < |xs| && f(xs[i]) == Err(r.error) && forall j :: 0 <= j < i ==> f(xs[j]).Ok?
  {
    if xs == [] then Ok([])
    else
      match f(xs[0])
      case Err(e) => Err(e)
      case Ok(y) =>
        var rest := MapAll(f, xs[1..]);
        if rest.Err? then
          ShiftedError(f, xs, rest.error);
          Err(rest.error)
        else Ok([y] + rest.value)
  }

  lemma ShiftedError<A, B>(f: A -> Result<B>, xs: seq<A>, e: CodecError)
    requires xs != [] && f(xs[0]).Ok?
    requires exists i :: 0 <= i < |xs[1..]| && f(xs[1..][i]) == Err(e) && forall j :: 0 <= j < i ==> f(xs[1..][j]).Ok?
    ensures exists i :: 0 <= i < |xs| && f(xs[i]) == Err(e) && forall j :: 0 <= j < i ==> f(xs[j]).Ok?
  {
    var i :| 0 <= i < |xs[1..]| && f(xs[1..][i]) == Err(e) && forall j :: 0 <= j < i ==> f(xs[1..][j]).Ok?;
    assert f(xs[i + 1]) == Err(e);
    forall j | 0 <= j < i + 1 ensures f(xs[j]).Ok? {
      if j > 0 { assert xs[j] == xs[1..][j - 1]; }
    }
  }

  lemma MapAllSucceeds<A, B>(f: A -> Result<B>, xs: seq<A>, ys: seq<B>)
    requires |ys| == |xs| && forall i :: 0 <= i < |xs| ==> f(xs[i]) == Ok(ys[i])
    ensures MapAll(f, xs) == Ok(ys)
  {
    var r := MapAll(f, xs);
    assert r.Ok?;
    forall i | 0 <= i < |xs| ensures r.value[i] == ys[i] { assert f(xs[i]) == Ok(r.value[i]); }
    assert r.value == ys;
  }

  lemma MapAllFails<A, B>(f: A -> Result<B>, xs: seq<A>, i: nat, e: CodecError)
    requires i < |xs| && f(xs[i]) == Err(e) && forall j :: 0 <= j < i ==> f(xs[j]).Ok?
    ensures MapAll(f, xs) == Err(e)
  {
    var r := MapAll(f, xs);
    assert r.Err?;
    var k :| 0 <= k < |xs| && f(xs[k]) == Err(r.error) && forall j :: 0 <= j < k ==> f(xs[j]).Ok?;
    assert k == i;
  }

  // ---- Definitions and groups ----

  predicate DependencyLeq(a: Dependency, b: Dependency) {
    if a.featureKey == b.featureKey then StringLeq(a.requiredVariant, b.requiredVariant) else StringLeq(a.featureKey, b.featureKey)
  }

  lemma DependencyOrderIsTotal()
    ensures TotalOrder(DependencyLeq)
  {
    StringOrderIsTotal();
  }

  function EncodedVariants(variants: map<string, Value>): (r: map<string, ValueWire>) {
    map k | k in variants :: EncodeValue(variants[k])
  }

  function EncodedDefinition(d: Definition): (r: Result<DefinitionWire>) {
    var strategies := MapAll(EncodeStrategy, d.strategies);
    if strategies.Err? then Err(strategies.error)
    else
      Ok(DefinitionWire(d.key, d.typ, EncodeValue(d.default), EncodedVariants(d.variants), d.metadata, d.owner, d.lifecycle,
                        Sort(DependencyLeq, d.dependencies), d.groups, SortStrings(d.tags), d.version, strategies.value))
  }

  function EncodedGroup(g: Group): (r: Result<GroupWire>) {
    var strategies := MapAll(EncodeStrategy, g.strategies);
    if strategies.Err? then Err(strategies.error)
    else Ok(GroupWire(g.key, g.parent, g.metadata, g.owner, SortStrings(g.tags), g.version, strategies.value))
  }

  function DecodedVariants(variants: map<string, ValueWire>): (r: Result<map<string, Value>>) {
    if forall k :: k in variants ==> DecodeValue(variants[k]).Ok? then
      Ok(map k | k in variants :: DecodeValue(variants[k]).value)
    else Err(InvalidPayload)
  }

  function DecodedDefinition(w: DefinitionWire): (r: Result<Definition>) {
    var default := DecodeValue(w.default);
    if default.Err? then Err(default.error)
    else
      var variants := DecodedVariants(w.variants);
      if variants.Err? then Err(variants.error)
      else
        var strategies := MapAll(DecodeStrategy, w.strategies);
        if strategies.Err? then Err(strategies.error)
        else
          Ok(Definition(w.key, w.typ, default.value, variants.value, w.metadata, w.owner, w.lifecycle, w.dependencies,
                        w.groups, w.tags, w.version, strategies.value))
  }

  function DecodedGroup(w: GroupWire): (r: Result<Group>) {
    var strategies := MapAll(DecodeStrategy, w.strategies);
    if strategies.Err? then Err(strategies.error)
    else Ok(Group(w.key, w.parent, w.metadata, w.owner, w.tags, w.version, strategies.value))
  }

  // ---- The loops that build them ----

  ghost predicate Mapped<A, B>(f: A -> Result<B>, xs: seq<A>, n: nat, ys: seq<B>) {
    n == |ys| <= |xs| && forall j :: 0 <= j < n ==> f(xs[j]) == Ok(ys[j])
  }

  lemma MapOne<A, B>(f: A -> Result<B>, xs: seq<A>, n: nat, ys: seq<B>, r: Result<B>)
    requires Mapped(f, xs, n, ys) && n < |xs| && f(xs[n]) == r
    ensures r.Err? ==> MapAll(f, xs) == Err(r.error)
    ensures r.Ok? ==> Mapped(f, xs, n + 1, ys + [r.value])
  {
    if r.Err? { MapAllFails(f, xs, n, r.error); }
  }

  lemma MapEnd<A, B>(f: A -> Result<B>, xs: seq<A>, ys: seq<B>)
    requires Mapped(f, xs, |xs|, ys)
    ensures MapAll(f, xs) == Ok(ys)
  {
    MapAllSucceeds(f, xs, ys);
  }

  method EncodeStrategies(strategies: seq<Strategy>) returns (r: Result<seq<StrategyWire>>)
    ensures r == MapAll(EncodeStrategy, strategies)
  {
    var out: seq<StrategyWire> := [];
    for i := 0 to |strategies|
      invariant Mapped(EncodeStrategy, strategies, i, out)
    {
      var encoded := EncodeStrategy(strategies[i]);
      MapOne(EncodeStrategy, strategies, i, out, encoded);
      if encoded.Err? { return Err(encoded.error); }
      out := out + [encoded.value];
    }
    MapEnd(EncodeStrategy, strategies, out);
    return Ok(out);
  }

  method DecodeStrategies(wires: seq<StrategyWire>) returns (r: Result<seq<Strategy>>)
    ensures r == MapAll(DecodeStrategy, wires)
  {
    var out: seq<Strategy> := [];
    for i := 0 to |wires|
      invariant Mapped(DecodeStrategy, wires, i, out)
    {
      var decoded := DecodeStrategy(wires[i]);
      MapOne(DecodeStrategy, wires, i, out, decoded);
      if decoded.Err? { return Err(decoded.error); }
      out := out + [decoded.value];
    }
    MapEnd(DecodeStrategy, wires, out);
    return Ok(out);
  }

  method EncodeVariants(variants: map<string, Value>) returns (r: map<string, ValueWire>)
    ensures r == EncodedVariants(variants)
  {
    r := map[];
    var todo := variants.Keys;
    while todo != {}
      invariant todo <= variants.Keys && r.Keys == variants.Keys - todo
      invariant forall k :: k in r ==> r[k] == EncodeValue(variants[k])
      decreases |todo|
    {
      var name :| name in todo;
      r := r[name := EncodeValue(variants[name])];
      todo := todo - {name};
    }
  }

  method DecodeVariants(variants: map<string, ValueWire>) returns (r: Result<map<string, Value>>)
    ensures r == DecodedVariants(variants)
  {
    var out: map<string, Value> := map[];
    var todo := variants.Keys;
    while todo != {}
      invariant todo <= variants.Keys && out.Keys == variants.Keys - todo
      invariant forall k :: k in out ==> DecodeValue(variants[k]) == Ok(out[k])
      decreases |todo|
    {
      var name :| name in todo;
      var value := DecodeValue(variants[name]);
      if value.Err? { return Err(InvalidPayload); }
      out := out[name := value.value];
      todo := todo - {name};
    }
    assert forall k :: k in variants ==> k in out;
    assert out == map k | k in variants :: DecodeValue(variants[k]).value;
    return Ok(out);
  }

  method EncodeDefinition(d: Definition) returns (r: Result<DefinitionWire>)
    ensures r == EncodedDefinition(d)
  {
    var variants := EncodeVariants(d.variants);
    var dependencies := Sort(DependencyLeq, d.dependencies);
    var strategies := EncodeStrategies(d.strategies);
    if strategies.Err? { return Err(strategies.error); }
    return Ok(DefinitionWire(d.key, d.typ, EncodeValue(d.default), variants, d.metadata, d.owner, d.lifecycle,
                             dependencies, d.groups, SortStrings(d.tags), d.version, strategies.value));
  }

  method DecodeDefinition(w: DefinitionWire) returns (r: Result<Definition>)
    ensures r == DecodedDefinition(w)
  {
    var default := DecodeValue(w.default);
    if default.Err? { return Err(default.error); }
    var variants := DecodeVariants(w.variants);
    if variants.Err? { return Err(variants.error); }
    var strategies := DecodeStrategies(w.strategies);
    if strategies.Err? { return Err(strategies.error); }
    return Ok(Definition(w.key, w.typ, default.value, variants.value, w.metadata, w.owner, w.lifecycle, w.dependencies,
                         w.groups, w.tags, w.version, strategies.value));
  }

  method EncodeGroup(g: Group) returns (r: Result<GroupWire>)
    ensures r == EncodedGroup(g)
  {
    var strategies := EncodeStrategies(g.strategies);
    if strategies.Err? { return Err(strategies.error); }
    return Ok(GroupWire(g.key, g.parent, g.metadata, g.owner, SortStrings(g.tags), g.version, strategies.value));
  }

  method DecodeGroup(w: GroupWire) returns (r: Result<Group>)
    ensures r == DecodedGroup(w)
  {
    var strategies := DecodeStrategies(w.strategies);
    if strategies.Err? { return Err(strategies.error); }
    return Ok(Group(w.key, w.parent, w.metadata, w.owner, w.tags, w.version, strategies.value));
  }

  // ---- Round trips ----

  function NormalStrategies(strategies: seq<Strategy>): (r: seq<Strategy>) {
    Each(NormalStrategy, strategies)
  }

  /** What is not semantic is arranged: tags, dependencies and target sets. Groups and strategies keep their order. */
  function NormalDefinition(d: Definition): (r: Definition) {
    d.(dependencies := Sort(DependencyLeq, d.dependencies), tags := SortStrings(d.tags),
       strategies := NormalStrategies(d.strategies))
  }

  function NormalGroup(g: Group): (r: Group) {
    g.(tags := SortStrings(g.tags), strategies := NormalStrategies(g.strategies))
  }

  predicate NoCustom(strategies: seq<Strategy>) { forall i :: 0 <= i < |strategies| ==> !strategies[i].Custom? }

  predicate AllCarried(strategies: seq<Strategy>) { forall i :: 0 <= i < |strategies| ==> CarriedStrategy(strategies[i]) }

  predicate CarriedDefinition(d: Definition) {
    Carried(d.default) && (forall k :: k in d.variants ==> Carried(d.variants[k])) && AllCarried(d.strategies)
  }

  lemma StrategiesEncode(strategies: seq<Strategy>)
    ensures MapAll(EncodeStrategy, strategies).Ok? <==> NoCustom(strategies)
  {
    forall i | 0 <= i < |strategies| ensures EncodeStrategy(strategies[i]).Ok? <==> !strategies[i].Custom? {
      StrategyRoundTrip(strategies[i]);
    }
  }

  lemma StrategiesRoundTrip(strategies: seq<Strategy>)
    requires NoCustom(strategies)
    ensures MapAll(EncodeStrategy, strategies).Ok?
    ensures MapAll(DecodeStrategy, MapAll(EncodeStrategy, strategies).value)
            == if AllCarried(strategies) then Ok(NormalStrategies(strategies)) else Err(InvalidPayload)
  {
    StrategiesEncode(strategies);
    var ws := MapAll(EncodeStrategy, strategies).value;
    forall i | 0 <= i < |ws|
      ensures DecodeStrategy(ws[i])
              == if CarriedStrategy(strategies[i]) then Ok(NormalStrategy(strategies[i])) else Err(InvalidPayload)
    {
      StrategyRoundTrip(strategies[i]);
    }
    if AllCarried(strategies) { MapAllSucceeds(DecodeStrategy, ws, NormalStrategies(strategies)); }
  }

  lemma VariantsRoundTrip(variants: map<string, Value>)
    ensures DecodedVariants(EncodedVariants(variants))
            == if forall k :: k in variants ==> Carried(variants[k]) then Ok(variants) else Err(InvalidPayload)
  {
    forall k | k in variants
      ensures DecodeValue(EncodedVariants(variants)[k]) == if Carried(variants[k]) then Ok(variants[k]) else Err(InvalidPayload)
    {
      ValueRoundTrip(variants[k]);
    }
    var back := DecodedVariants(EncodedVariants(variants));
    if back.Ok? { assert back.value == variants; }
  }

  /** Encoding fails exactly on custom strategies; decoding then gives the definition back in normal form. */
  lemma DefinitionRoundTrip(d: Definition)
    ensures EncodedDefinition(d).Ok? <==> NoCustom(d.strategies)
    ensures EncodedDefinition(d).Ok? ==>
              DecodedDefinition(EncodedDefinition(d).value)
              == if CarriedDefinition(d) then Ok(NormalDefinition(d)) else Err(InvalidPayload)
  {
    StrategiesEncode(d.strategies);
    if NoCustom(d.strategies) { StrategiesRoundTrip(d.strategies); }
    ValueRoundTrip(d.default);
    VariantsRoundTrip(d.variants);
  }

  lemma GroupRoundTrip(g: Group)
    ensures EncodedGroup(g).Ok? <==> NoCustom(g.strategies)
    ensures EncodedGroup(g).Ok? ==>
              DecodedGroup(EncodedGroup(g).value) == if AllCarried(g.strategies) then Ok(NormalGroup(g)) else Err(InvalidPayload)
  {
    StrategiesEncode(g.strategies);
    if NoCustom(g.strategies) { StrategiesRoundTrip(g.strategies); }
  }

  // ---- Canonical form ----

  ghost predicate SameTargets(a: seq<string>, b: seq<string>) { multiset(a) == multiset(b) }

  /** Equal but for the arrangement of target sets. */
  ghost predicate SameStrategy(a: Strategy, b: Strategy) {
    match (a, b)
    case (Exact(n, v, t, s, e, m), Exact(n', v', t', s', e', m')) =>
      n == n' && v == v' && SameTargets(t, t') && SameTargets(s, s') && SameTargets(e, e') && m == m'
    case (Sets(n, v, at, dt, as_, ds), Sets(n', v', at', dt', as', ds')) =>
      n == n' && v == v' && SameTargets(at, at') && SameTargets(dt, dt') && SameTargets(as_, as') && SameTargets(ds, ds')
    case _ => a == b
  }

  ghost predicate SameStrategies(a: seq<Strategy>, b: seq<Strategy>) {
    |a| == |b| && forall i :: 0 <= i < |a| ==> SameStrategy(a[i], b[i])
  }

  /** Equal but for the arrangement of tags, dependencies and target sets: attachment and strategy order count. */
  ghost predicate SameDefinition(a: Definition, b: Definition) {
    && a.(dependencies := [], tags := [], strategies := []) == b.(dependencies := [], tags := [], strategies := [])
    && multiset(a.dependencies) == multiset(b.dependencies) && SameTargets(a.tags, b.tags)
    && SameStrategies(a.strategies, b.strategies)
  }

  ghost predicate SameGroup(a: Group, b: Group) {
    && a.(tags := [], strategies := []) == b.(tags := [], strategies := [])
    && SameTargets(a.tags, b.tags) && SameStrategies(a.strategies, b.strategies)
  }

  lemma SortedTargets(a: seq<string>, b: seq<string>)
    ensures SortStrings(a) == SortStrings(b) <==> SameTargets(a, b)
  {
    StringOrderIsTotal();
    SortForgetsOrder(StringLeq, a, b);
  }

  lemma CanonicalExact(a: Strategy, b: Strategy)
    requires a.Exact? && b.Exact?
    ensures EncodeStrategy(a) == EncodeStrategy(b) <==> SameStrategy(a, b)
  {
    SortedTargets(a.tenants, b.tenants);
    SortedTargets(a.subjects, b.subjects);
    SortedTargets(a.environments, b.environments);
  }

  lemma CanonicalSets(a: Strategy, b: Strategy)
    requires a.Sets? && b.Sets?
    ensures EncodeStrategy(a) == EncodeStrategy(b) <==> SameStrategy(a, b)
  {
    SortedTargets(a.allowTenants, b.allowTenants);
    SortedTargets(a.denyTenants, b.denyTenants);
    SortedTargets(a.allowSubjects, b.allowSubjects);
    SortedTargets(a.denySubjects, b.denySubjects);
  }

  lemma CanonicalStrategy(a: Strategy, b: Strategy)
    requires CarriedStrategy(a) && CarriedStrategy(b)
    ensures EncodeStrategy(a) == EncodeStrategy(b) <==> SameStrategy(a, b)
  {
    StrategyRoundTrip(a);
    StrategyRoundTrip(b);
    if a.Exact? && b.Exact? { CanonicalExact(a, b); }
    if a.Sets? && b.Sets? { CanonicalSets(a, b); }
  }

  lemma CanonicalStrategies(a: seq<Strategy>, b: seq<Strategy>)
    requires AllCarried(a) && AllCarried(b)
    ensures MapAll(EncodeStrategy, a).Ok? && MapAll(EncodeStrategy, b).Ok?
    ensures MapAll(EncodeStrategy, a) == MapAll(EncodeStrategy, b) <==> SameStrategies(a, b)
  {
    StrategiesEncode(a);
    StrategiesEncode(b);
    MapAllEqual(EncodeStrategy, a, b);
    if |a| == |b| {
      forall i | 0 <= i < |a| ensures EncodeStrategy(a[i]) == EncodeStrategy(b[i]) <==> SameStrategy(a[i], b[i]) {
        CanonicalStrategy(a[i], b[i]);
      }
    }
  }

  lemma MapAllEqual<A, B>(f: A -> Result<B>, a: seq<A>, b: seq<A>)
    requires MapAll(f, a).Ok? && MapAll(f, b).Ok?
    ensures MapAll(f, a) == MapAll(f, b) <==> |a| == |b| && forall i :: 0 <= i < |a| ==> f(a[i]) == f(b[i])
  {
    var x, y := MapAll(f, a).value, MapAll(f, b).value;
    if |a| == |b| && forall i :: 0 <= i < |a| ==> f(a[i]) == f(b[i]) {
      MapAllSucceeds(f, b, x);
    }
  }

  lemma CanonicalVariants(a: map<string, Value>, b: map<string, Value>)
    requires (forall k :: k in a ==> Carried(a[k])) && (forall k :: k in b ==> Carried(b[k]))
    ensures EncodedVariants(a) == EncodedVariants(b) <==> a == b
  {
    VariantsRoundTrip(a);
    VariantsRoundTrip(b);
  }

  /** Two definitions have the same wire exactly when they differ only in what is not semantic. */
  lemma CanonicalDefinition(a: Definition, b: Definition)
    requires CarriedDefinition(a) && CarriedDefinition(b)
    ensures EncodedDefinition(a) == EncodedDefinition(b) <==> SameDefinition(a, b)
  {
    CanonicalStrategies(a.strategies, b.strategies);
    CanonicalVariants(a.variants, b.variants);
    ValueRoundTrip(a.default);
    ValueRoundTrip(b.default);
    SortedTargets(a.tags, b.tags);
    DependencyOrderIsTotal();
    SortForgetsOrder(DependencyLeq, a.dependencies, b.dependencies);
  }

  lemma CanonicalGroup(a: Group, b: Group)
    requires AllCarried(a.strategies) && AllCarried(b.strategies)
    ensures EncodedGroup(a) == EncodedGroup(b) <==> SameGroup(a, b)
  {
    CanonicalStrategies(a.strategies, b.strategies);
    SortedTargets(a.tags, b.tags);
  }

  lemma NormalIsSameStrategy(s: Strategy)
    ensures SameStrategy(s, NormalStrategy(s)) && (CarriedStrategy(s) <==> CarriedStrategy(NormalStrategy(s)))
  {
  }

  lemma NormalIsSame(d: Definition)
    ensures SameDefinition(d, NormalDefinition(d))
  {
    forall i | 0 <= i < |d.strategies| ensures SameStrategy(d.strategies[i], NormalDefinition(d).strategies[i]) {
      NormalIsSameStrategy(d.strategies[i]);
    }
  }

  /** Encoding what was decoded gives the same wire again. */
  lemma ReencodingIsIdentity(d: Definition)
    requires CarriedDefinition(d)
    ensures EncodedDefinition(d).Ok?
    ensures var back := DecodedDefinition(EncodedDefinition(d).value);
            back.Ok? && EncodedDefinition(back.value) == EncodedDefinition(d)
  {
    DefinitionRoundTrip(d);
    NormalIsSame(d);
    forall i | 0 <= i < |d.strategies| ensures CarriedStrategy(NormalDefinition(d).strategies[i]) {
      NormalIsSameStrategy(d.strategies[i]);
    }
    CanonicalDefinition(d, NormalDefinition(d));
  }

  lemma NormalIsSameGroup(g: Group)
    ensures SameGroup(g, NormalGroup(g))
  {
    forall i | 0 <= i < |g.strategies| ensures SameStrategy(g.strategies[i], NormalGroup(g).strategies[i]) {
      NormalIsSameStrategy(g.strategies[i]);
    }
  }

  lemma ReencodingGroupIsIdentity(g: Group)
    requires AllCarried(g.strategies)
    ensures EncodedGroup(g).Ok?
    ensures var back := DecodedGroup(EncodedGroup(g).value); back.Ok? && EncodedGroup(back.value) == EncodedGroup(g)
  {
    GroupRoundTrip(g);
    NormalIsSameGroup(g);
    forall i | 0 <= i < |g.strategies| ensures CarriedStrategy(NormalGroup(g).strategies[i]) {
      NormalIsSameStrategy(g.strategies[i]);
    }
    CanonicalGroup(g, NormalGroup(g));
  }
}
