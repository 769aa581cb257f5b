/** Values, strategies, definitions, groups and limits, with their per-item validation. */
module Model {

  datatype Option<+T> = None | Some(value: T)

  /** The largest duration, in nanoseconds on 64 bits. */
  const MAX_DURATION: nat := 9_223_372_036_854_775_807

  /** Elapsed time: none when the clock went back, and never more than the largest duration. */
  function Age(now: int, since: int): (age: nat)
    ensures now <= since ==> age == 0
    ensures since <= now <= since + MAX_DURATION ==> since + age == now
    ensures now > since + MAX_DURATION ==> age == MAX_DURATION
  {
    if now < since then 0 else if now - since > MAX_DURATION then MAX_DURATION else now - since
  }

  datatype Type = BooleanType | StringType | IntegerType | FloatType | DecimalType | StructuredType | OtherType(name: string)

  datatype Float64 = Finite(r: real) | NonFinite

  /** `Untyped` is the zero value, which no constructor makes. */
  datatype Value =
    | BooleanValue(boolean: bool)
    | StringValue(text: string)
    | IntegerValue(integer: int)
    | FloatValue(floating: Float64)
    | DecimalValue(text: string)
    | StructuredValue(bytes: string)
    | Untyped
  {
    function Type(): (t: Type) {
      match this
      case BooleanValue(_) => BooleanType
      case StringValue(_) => StringType
      case IntegerValue(_) => IntegerType
      case FloatValue(_) => FloatType
      case DecimalValue(_) => DecimalType
      case StructuredValue(_) => StructuredType
      case Untyped => OtherType("")
    }

    /** Strict typed equality: non-finite floats and zero values equal nothing. */
    predicate Same(other: Value) {
      match this
      case FloatValue(NonFinite) => false
      case Untyped => false
      case _ => this == other
    }
  }

  datatype Reason =
    | TargetingMatch | Rollout | Schedule | DependencyFailed | GroupMatch | Default | Inactive
    | DegradedFailOpen | DegradedDefault | DegradedLastKnownGood | Unstated | OtherReason(name: string)

  datatype Diagnostic = Diagnostic(code: string, message: string)

  /** Instants are integers; zero is the zero instant. */
  datatype Context = Context(
    subject: string, tenant: string, environment: string,
    attributes: map<string, string>, facts: map<string, Value>, time: int)

  datatype WeeklyWindow = WeeklyWindow(weekday: int, startMinute: int, endMinute: int)

  /** The built-in strategies, and a caller-supplied one known by an opaque identity. */
  datatype Strategy =
    | Exact(name: string, variant: string, tenants: seq<string>, subjects: seq<string>,
            environments: seq<string>, attributes: map<string, string>)
    | Percentage(name: string, variant: string, seed: string, threshold: nat)
    | Sets(name: string, variant: string, allowTenants: seq<string>, denyTenants: seq<string>,
           allowSubjects: seq<string>, denySubjects: seq<string>)
    | TimeWindow(name: string, variant: string, notBefore: int, notAfter: int)
    | Weekly(name: string, variant: string, location: string, windows: seq<WeeklyWindow>)
    | Fact(name: string, variant: string, fact: string, equals: Value)
    | Custom(name: string, variant: string, identity: nat)

  datatype StrategyResult = StrategyResult(matched: bool, reason: Reason, diagnostics: seq<Diagnostic>) | StrategyFailure

  datatype LocalTime = LocalTime(weekday: int, minute: int)

  /** What the engine asks of hashing, time zone data, the JSON scanner and caller-supplied strategies. */
  datatype Runtime = Runtime(
    bucket: (string, string, string, string) -> nat,
    knownLocation: string -> bool,
    localTime: (string, int) -> LocalTime,
    validJson: string -> bool,
    validCustom: nat -> bool,
    custom: (nat, string, Context) -> StrategyResult)

  datatype Limits = Limits(
    maxFeatures: nat, maxVariants: nat, maxDependencies: nat, maxGroups: nat, maxTags: nat, maxMetadata: nat,
    maxAuditEntries: nat, maxAttributes: nat, maxFacts: nat, maxStrategies: nat, maxTargetValues: nat,
    maxScheduleWindows: nat, maxEvaluationDepth: nat, maxGroupDepth: nat, maxStringBytes: nat,
    maxStructuredBytes: nat, maxContextKeyBytes: nat, maxContextValueBytes: nat, maxKeyBytes: nat,
    maxStateBytes: nat, maxStorageRetries: nat, maxStagedChanges: nat)

  /** Everything evaluation and management read besides tenant state. */
  datatype Env = Env(limits: Limits, runtime: Runtime)

  datatype Lifecycle = Draft | Active | Inactivated | Deprecated | Archived | OtherLifecycle(name: string)

  datatype Dependency = Dependency(featureKey: string, requiredVariant: string)

  datatype Definition = Definition(
    key: string, typ: Type, default: Value, variants: map<string, Value>, metadata: map<string, string>,
    owner: string, lifecycle: Lifecycle, dependencies: seq<Dependency>, groups: seq<string>, tags: seq<string>,
    version: nat, strategies: seq<Strategy>)

  datatype Group = Group(
    key: string, parent: string, metadata: map<string, string>, owner: string, tags: seq<string>,
    version: nat, strategies: seq<Strategy>)

  // ---- Strategy evaluation ----

  predicate Listed(values: seq<string>, candidate: string) { candidate in values }

  predicate ListedOrUnrestricted(values: seq<string>, candidate: string) { values == [] || candidate in values }

  predicate MatchesAttributes(required: map<string, string>, actual: map<string, string>) {
    forall k :: k in required ==> k in actual && actual[k] == required[k]
  }

  /** A window whose end precedes its start runs into the next weekday. */
  predicate WindowMatches(w: WeeklyWindow, at: LocalTime) {
    if w.startMinute < w.endMinute then at.weekday == w.weekday && w.startMinute <= at.minute < w.endMinute
    else if w.startMinute == w.endMinute then false
    else (at.weekday == w.weekday && w.startMinute <= at.minute)
         || (at.weekday == (w.weekday + 1) % 7 && at.minute < w.endMinute)
  }

  function EvaluateStrategy(rt: Runtime, s: Strategy, feature: string, ctx: Context): (r: StrategyResult) {
    match s
    case Exact(_, _, tenants, subjects, environments, attributes) =>
      StrategyResult(ListedOrUnrestricted(tenants, ctx.tenant) && ListedOrUnrestricted(subjects, ctx.subject)
                     && ListedOrUnrestricted(environments, ctx.environment) && MatchesAttributes(attributes, ctx.attributes),
                     TargetingMatch, [])
    case Percentage(_, _, seed, threshold) =>
      StrategyResult(ctx.tenant != "" && ctx.subject != ""
                     && rt.bucket(seed, feature, ctx.tenant, ctx.subject) < threshold, Rollout, [])
    case Sets(_, _, allowTenants, denyTenants, allowSubjects, denySubjects) =>
      StrategyResult(ListedOrUnrestricted(allowTenants, ctx.tenant) && ListedOrUnrestricted(allowSubjects, ctx.subject)
                     && !(Listed(denyTenants, ctx.tenant) || Listed(denySubjects, ctx.subject)), TargetingMatch, [])
    case TimeWindow(_, _, notBefore, notAfter) =>
      StrategyResult(ctx.time != 0 && (notBefore == 0 || notBefore <= ctx.time) && (notAfter == 0 || ctx.time < notAfter),
                     Schedule, [])
    case Weekly(_, _, location, windows) =>
      if ctx.time == 0 then StrategyResult(false, Schedule, [])
      else if !rt.knownLocation(location) then StrategyFailure
      else StrategyResult(exists i :: 0 <= i < |windows| && WindowMatches(windows[i], rt.localTime(location, ctx.time)), Schedule, [])
    case Fact(_, _, fact, equals) =>
      StrategyResult(fact in ctx.facts && ctx.facts[fact].Same(equals), TargetingMatch, [])
    case Custom(_, _, identity) => rt.custom(identity, feature, ctx)
  }

  /** Minutes since the start of the week. */
  function MinuteOfWeek(weekday: int, minute: int): (m: int) { weekday * 1440 + minute }

  /** Minutes a valid window lasts, running over midnight when its end precedes its start. */
  function WindowLength(w: WeeklyWindow): (m: int) {
    if w.startMinute < w.endMinute then w.endMinute - w.startMinute else 1440 - w.startMinute + w.endMinute
  }

  /** A window is one half-open interval on the circle of the week's minutes. */
  lemma WindowIsAWeeklyInterval(w: WeeklyWindow, at: LocalTime)
    requires ValidWindow(w) && 0 <= at.weekday <= 6 && 0 <= at.minute < 1440
    ensures WindowMatches(w, at)
            <==> (MinuteOfWeek(at.weekday, at.minute) - MinuteOfWeek(w.weekday, w.startMinute)) % 10_080 < WindowLength(w)
  {
    var elapsed := MinuteOfWeek(at.weekday, at.minute) - MinuteOfWeek(w.weekday, w.startMinute);
    if elapsed >= 0 {
      assert elapsed % 10_080 == elapsed;
    } else {
      assert elapsed % 10_080 == elapsed + 10_080;
    }
  }

  predicate Matches(rt: Runtime, s: Strategy, feature: string, ctx: Context) {
    EvaluateStrategy(rt, s, feature, ctx).StrategyResult? && EvaluateStrategy(rt, s, feature, ctx).matched
  }

  /** Exact targeting is the conjunction of its criteria, and one that is empty restricts nothing. */
  lemma CriteriaRestrictIndependently(rt: Runtime, s: Strategy, feature: string, ctx: Context)
    requires s.Exact?
    ensures var unrestricted := s.(tenants := [], subjects := [], environments := [], attributes := map[]);
            && Matches(rt, unrestricted, feature, ctx)
            && (Matches(rt, s, feature, ctx) <==>
                  && Matches(rt, unrestricted.(tenants := s.tenants), feature, ctx)
                  && Matches(rt, unrestricted.(subjects := s.subjects), feature, ctx)
                  && Matches(rt, unrestricted.(environments := s.environments), feature, ctx)
                  && Matches(rt, unrestricted.(attributes := s.attributes), feature, ctx))
            && (forall t :: t in s.tenants ==> Matches(rt, unrestricted.(tenants := s.tenants), feature, ctx.(tenant := t)))
            && (s.tenants != [] && ctx.tenant !in s.tenants ==> !Matches(rt, s, feature, ctx))
            && (s.subjects != [] && ctx.subject !in s.subjects ==> !Matches(rt, s, feature, ctx))
            && (s.environments != [] && ctx.environment !in s.environments ==> !Matches(rt, s, feature, ctx))
            && (Matches(rt, s, feature, ctx) ==> s.attributes.Items <= ctx.attributes.Items)
            && EvaluateStrategy(rt, s, feature, ctx) == StrategyResult(Matches(rt, s, feature, ctx), TargetingMatch, [])
  {
    if Matches(rt, s, feature, ctx) {
      assert forall k :: k in s.attributes ==> k in ctx.attributes && ctx.attributes[k] == s.attributes[k];
    }
  }

  /** Without denials the sets are exact targeting of tenants and subjects; denials take away exactly who they name. */
  lemma DenialWins(rt: Runtime, s: Strategy, feature: string, ctx: Context)
    requires s.Sets?
    ensures var open := s.(denyTenants := [], denySubjects := []);
            var exact := Exact(s.name, s.variant, s.allowTenants, s.allowSubjects, [], map[]);
            && EvaluateStrategy(rt, open, feature, ctx) == EvaluateStrategy(rt, exact, feature, ctx)
            && (Matches(rt, s, feature, ctx) <==>
                  Matches(rt, open, feature, ctx) && ctx.tenant !in s.denyTenants && ctx.subject !in s.denySubjects)
  {
  }

  /** Raising a rollout by one step adds exactly the next bucket; nobody without tenant and subject is ever in. */
  lemma RolloutGrowsByBuckets(rt: Runtime, s: Strategy, feature: string, ctx: Context)
    requires s.Percentage?
    ensures s.threshold == 0 || ctx.tenant == "" || ctx.subject == "" ==> !Matches(rt, s, feature, ctx)
    ensures Matches(rt, s.(threshold := s.threshold + 1), feature, ctx) <==>
              || Matches(rt, s, feature, ctx)
              || (ctx.tenant != "" && ctx.subject != "" && rt.bucket(s.seed, feature, ctx.tenant, ctx.subject) == s.threshold)
    ensures EvaluateStrategy(rt, s, feature, ctx) == StrategyResult(Matches(rt, s, feature, ctx), Rollout, [])
  {
  }

  /** Raising a rollout's threshold never takes a subject out. */
  lemma {:induction false} RolloutIsMonotone(rt: Runtime, s: Strategy, threshold: nat, feature: string, ctx: Context)
    requires s.Percentage? && s.threshold <= threshold && Matches(rt, s, feature, ctx)
    ensures Matches(rt, s.(threshold := threshold), feature, ctx)
    decreases threshold - s.threshold
  {
    hide EvaluateStrategy, Matches;
    if s.threshold < threshold {
      RolloutGrowsByBuckets(rt, s, feature, ctx);
      RolloutIsMonotone(rt, s.(threshold := s.threshold + 1), threshold, feature, ctx);
    } else {
      assert s.(threshold := threshold) == s;
    }
  }

  /** Windows are half-open: cut at an instant inside, one becomes two that share no instant and miss none. */
  lemma WindowsMeetWithoutOverlap(rt: Runtime, s: Strategy, cut: int, feature: string, ctx: Context)
    requires s.TimeWindow? && cut != 0 && (s.notBefore != 0 ==> s.notBefore <= cut) && (s.notAfter != 0 ==> cut <= s.notAfter)
    ensures var early, late := s.(notAfter := cut), s.(notBefore := cut);
            && (Matches(rt, s, feature, ctx) <==> Matches(rt, early, feature, ctx) || Matches(rt, late, feature, ctx))
            && !(Matches(rt, early, feature, ctx) && Matches(rt, late, feature, ctx))
            && (Matches(rt, early, feature, ctx) ==> ctx.time < cut) && (Matches(rt, late, feature, ctx) ==> cut <= ctx.time)
            && (ctx.time == 0 ==> !Matches(rt, s, feature, ctx))
            && (s.notBefore == 0 && s.notAfter == 0 && ctx.time != 0 ==> Matches(rt, s, feature, ctx))
            && EvaluateStrategy(rt, s, feature, ctx) == StrategyResult(Matches(rt, s, feature, ctx), Schedule, [])
  {
  }

  /** A weekly schedule in a known zone is the union of its windows, on the local clock; in an unknown one it fails. */
  lemma SchedulesAreUnions(rt: Runtime, s: Strategy, more: seq<WeeklyWindow>, feature: string, ctx: Context)
    requires s.Weekly? && ctx.time != 0
    ensures EvaluateStrategy(rt, s, feature, ctx).StrategyFailure? <==> !rt.knownLocation(s.location)
    ensures Matches(rt, s.(windows := s.windows + more), feature, ctx)
            <==> Matches(rt, s, feature, ctx) || Matches(rt, s.(windows := more), feature, ctx)
    ensures rt.knownLocation(s.location) ==>
              forall w :: Matches(rt, s.(windows := [w]), feature, ctx) <==> WindowMatches(w, rt.localTime(s.location, ctx.time))
  {
    var all, at := s.windows + more, rt.localTime(s.location, ctx.time);
    assert forall i :: 0 <= i < |s.windows| ==> all[i] == s.windows[i];
    assert forall i :: 0 <= i < |more| ==> all[|s.windows| + i] == more[i];
    hide WindowMatches;
    forall w: WeeklyWindow ensures (exists i :: 0 <= i < |[w]| && WindowMatches([w][i], at)) <==> WindowMatches(w, at) {
      assert [w][0] == w;
    }
  }

  /** A fact matches exactly an equal value of the same type; the values that equal nothing never match. */
  lemma FactsMatchByValue(rt: Runtime, s: Strategy, feature: string, ctx: Context)
    requires s.Fact?
    ensures Matches(rt, s, feature, ctx) <==>
              s.fact in ctx.facts && ctx.facts[s.fact] == s.equals && s.equals != Untyped && s.equals != FloatValue(NonFinite)
    ensures EvaluateStrategy(rt, s, feature, ctx) == StrategyResult(Matches(rt, s, feature, ctx), TargetingMatch, [])
  {
  }

  // ---- Validation ----

  predicate Digits(s: string) { forall i :: 0 <= i < |s| ==> '0' <= s[i] <= '9' }

  /** An optional sign, a whole part without leading zeroes, and an optional non-empty fraction. */
  predicate CanonicalDecimal(s: string) {
    var t := if s != "" && s[0] == '-' then s[1..] else s;
    exists n :: 0 < n <= |t| && Digits(t[..n]) && (t[0] == '0' ==> n == 1)
                && (n == |t| || (t[n] == '.' && n + 1 < |t| && Digits(t[n+1..])))
  }

  predicate ValidValue(env: Env, v: Value) {
    match v
    case BooleanValue(_) => true
    case IntegerValue(_) => true
    case StringValue(text) => |text| <= env.limits.maxStringBytes
    case FloatValue(f) => f.Finite?
    case DecimalValue(text) => |text| <= env.limits.maxStringBytes && CanonicalDecimal(text)
    case StructuredValue(bytes) =>
      |bytes| <= env.limits.maxStructuredBytes && bytes != "" && env.runtime.validJson(bytes) // no empty text is JSON
    case Untyped => false
  }

  predicate ValidTargets(limits: Limits, values: seq<string>) {
    forall i :: 0 <= i < |values| ==> values[i] != "" && |values[i]| <= limits.maxContextValueBytes
  }

  predicate ValidWindow(w: WeeklyWindow) {
    0 <= w.weekday <= 6 && 0 <= w.startMinute < 1440 && 0 <= w.endMinute <= 1440 && w.startMinute != w.endMinute
  }

  predicate ValidStrategy(env: Env, s: Strategy) {
    match s
    case Exact(_, _, tenants, subjects, environments, attributes) =>
      && ValidTargets(env.limits, tenants) && ValidTargets(env.limits, subjects) && ValidTargets(env.limits, environments)
      && |tenants| + |subjects| + |environments| <= env.limits.maxTargetValues
      && |attributes| <= env.limits.maxAttributes
      && forall k :: k in attributes ==> k != "" && |k| <= env.limits.maxContextKeyBytes
                                         && |attributes[k]| <= env.limits.maxContextValueBytes
    case Percentage(_, _, _, threshold) => threshold <= 100_000
    case Sets(_, _, allowTenants, denyTenants, allowSubjects, denySubjects) =>
      && ValidTargets(env.limits, allowTenants) && ValidTargets(env.limits, denyTenants)
      && ValidTargets(env.limits, allowSubjects) && ValidTargets(env.limits, denySubjects)
      && |allowTenants| + |denyTenants| + |allowSubjects| + |denySubjects| <= env.limits.maxTargetValues
    case TimeWindow(_, _, notBefore, notAfter) =>
      (notBefore != 0 || notAfter != 0) && (notBefore != 0 && notAfter != 0 ==> notBefore < notAfter)
    case Weekly(_, _, location, windows) =>
      && location != "" && env.runtime.knownLocation(location)
      && 0 < |windows| <= env.limits.maxScheduleWindows
      && forall i :: 0 <= i < |windows| ==> ValidWindow(windows[i])
    case Fact(_, _, fact, equals) => fact != "" && ValidValue(env, equals)
    case Custom(_, _, identity) => env.runtime.validCustom(identity)
  }

  predicate ValidLabels(limits: Limits, owner: string, metadata: map<string, string>, tags: seq<string>) {
    && |owner| <= limits.maxStringBytes && |metadata| <= limits.maxMetadata && |tags| <= limits.maxTags
    && (forall k :: k in metadata ==> k != "" && |k| <= limits.maxKeyBytes && |metadata[k]| <= limits.maxStringBytes)
    && (forall i :: 0 <= i < |tags| ==> tags[i] != "" && |tags[i]| <= limits.maxKeyBytes)
  }

  predicate ValidKey(limits: Limits, key: string) { key != "" && |key| <= limits.maxKeyBytes }

  predicate ValidDefinition(env: Env, d: Definition) {
    && ValidKey(env.limits, d.key)
    && ValidValue(env, d.default) && d.default.Type() == d.typ
    && |d.variants| <= env.limits.maxVariants
    && ValidLabels(env.limits, d.owner, d.metadata, d.tags)
    && |d.strategies| <= env.limits.maxStrategies
    && |d.dependencies| <= env.limits.maxDependencies
    && |d.groups| <= env.limits.maxGroups
    && (forall i :: 0 <= i < |d.dependencies| ==>
          ValidKey(env.limits, d.dependencies[i].featureKey) && ValidKey(env.limits, d.dependencies[i].requiredVariant))
    && (forall i :: 0 <= i < |d.groups| ==> ValidKey(env.limits, d.groups[i]))
    && (forall v :: v in d.variants ==>
          ValidKey(env.limits, v) && ValidValue(env, d.variants[v]) && d.variants[v].Type() == d.typ)
    && (forall i :: 0 <= i < |d.strategies| ==>
          && ValidKey(env.limits, d.strategies[i].name) && d.strategies[i].variant in d.variants
          && ValidStrategy(env, d.strategies[i]))
  }

  predicate ValidGroup(env: Env, g: Group) {
    && ValidKey(env.limits, g.key)
    && |g.parent| <= env.limits.maxKeyBytes
    && ValidLabels(env.limits, g.owner, g.metadata, g.tags)
    && |g.strategies| <= env.limits.maxStrategies
    && forall i :: 0 <= i < |g.strategies| ==>
         && ValidKey(env.limits, g.strategies[i].name) && ValidKey(env.limits, g.strategies[i].variant)
         && ValidStrategy(env, g.strategies[i])
  }
}
