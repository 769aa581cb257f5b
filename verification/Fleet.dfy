/** One tenant's fleet: clock, candidate checks, active snapshot, refresh admission and degraded answers. */
module Fleet {
  import opened Ordering
  import opened Keyed
  import opened Model
  import opened GroupForest
  import opened DependencyGraph
  import opened Evaluator

  const MAX_IDENTITY := 128

  datatype Mode = FailClosed | FailOpen | UseDefault | LastKnownGood | UnknownMode

  datatype FlagPolicy = FlagPolicy(mode: Mode, default: Value, maxStaleness: int, securitySensitive: bool)

  datatype Config = Config(
    tenant: string, replica: string, refreshInterval: int, minRefreshInterval: int, maxRefreshJitter: int, loadTimeout: int,
    freshFor: int, maxStaleness: int, maxFutureSkew: int, convergenceWindow: int, maxWaiters: int, maxProviderLoads: int,
    maxConcurrentLoads: int, maxStreams: int, maxPolicies: int, allowEmpty: bool, allowStaleBootstrap: bool,
    policies: map<string, FlagPolicy>)

  // ---- Construction ----

  predicate IdentityOk(s: string) { s != "" && |s| <= MAX_IDENTITY }

  /** The bounds on time and resources; `defaults` are the library's default limits. */
  predicate BoundsOk(defaults: Limits, c: Config) {
    && IdentityOk(c.tenant) && IdentityOk(c.replica)
    && 0 < c.minRefreshInterval <= c.refreshInterval && 0 <= c.maxRefreshJitter && 0 <= c.maxFutureSkew && 0 < c.loadTimeout
    && 0 < c.freshFor <= c.maxStaleness
    && c.refreshInterval + c.maxRefreshJitter + c.loadTimeout <= MAX_DURATION
    && c.refreshInterval + c.maxRefreshJitter + c.loadTimeout <= c.convergenceWindow
    && 0 < c.maxWaiters <= 65_536 && 0 < c.maxProviderLoads <= 1_024 && 0 < c.maxConcurrentLoads <= 1_024
    && 0 < c.maxStreams <= 10_000 && 0 < c.maxPolicies <= defaults.maxFeatures
    && |c.policies| <= c.maxPolicies
  }

  /** A policy as configured: a known mode, safe when security sensitive, and no staler than the fleet allows. */
  predicate PolicyOk(defaults: Limits, c: Config, key: string, p: FlagPolicy) {
    && key != "" && |key| <= defaults.maxKeyBytes && p.mode != UnknownMode
    && (p.securitySensitive ==> p.mode != FailOpen && p.mode != UseDefault)
    && (p.mode == LastKnownGood ==> p.maxStaleness <= c.maxStaleness)
  }

  /** A last-known-good policy without its own bound inherits the fleet's. */
  function Inherited(c: Config, p: FlagPolicy): (r: FlagPolicy) {
    if p.mode == LastKnownGood && p.maxStaleness <= 0 then p.(maxStaleness := c.maxStaleness) else p
  }

  ghost predicate Acceptable(defaults: Limits, c: Config) {
    BoundsOk(defaults, c) && forall k :: k in c.policies ==> PolicyOk(defaults, c, k, c.policies[k])
  }

  /** What the rest of the fleet relies on. */
  ghost predicate Sane(c: Config) {
    && 0 < c.freshFor <= c.maxStaleness && 0 <= c.maxFutureSkew && 0 < c.minRefreshInterval <= MAX_DURATION
    && 0 < c.maxWaiters && 0 < c.maxStreams
    && forall k :: k in c.policies ==>
         && (c.policies[k].securitySensitive ==> c.policies[k].mode != FailOpen && c.policies[k].mode != UseDefault)
         && (c.policies[k].mode == LastKnownGood ==> 0 < c.policies[k].maxStaleness <= c.maxStaleness)
  }

  /** Copies the policies with their inherited bounds; any bad one is refused. */
  method CopyPolicies(defaults: Limits, c: Config) returns (r: Option<map<string, FlagPolicy>>)
    requires c.maxStaleness > 0
    ensures r.Some? <==> forall k :: k in c.policies ==> PolicyOk(defaults, c, k, c.policies[k])
    ensures r.Some? ==> r.value.Keys == c.policies.Keys && forall k :: k in r.value ==> r.value[k] == Inherited(c, c.policies[k])
  {
    var out: map<string, FlagPolicy> := map[];
    var todo := c.policies.Keys;
    while todo != {}
      invariant todo <= c.policies.Keys && out.Keys == c.policies.Keys - todo
      invariant forall k :: k in out ==> PolicyOk(defaults, c, k, c.policies[k]) && out[k] == Inherited(c, c.policies[k])
      decreases |todo|
    {
      var key :| key in todo;
      var p := c.policies[key];
      if key == "" || |key| > defaults.maxKeyBytes { return None; }
      if p.mode == UnknownMode { return None; }
      if p.securitySensitive && (p.mode == FailOpen || p.mode == UseDefault) { return None; }
      if p.mode == LastKnownGood {
        if p.maxStaleness <= 0 { p := p.(maxStaleness := c.maxStaleness); }
        if p.maxStaleness > c.maxStaleness { return None; }
      }
      out := out[key := p];
      todo := todo - {key};
    }
    assert forall k :: k in c.policies ==> k in out;
    return Some(out);
  }

  method NewFleetConfig(defaults: Limits, c: Config) returns (r: Option<Config>)
    ensures r.Some? <==> Acceptable(defaults, c)
    ensures r.Some? ==> Sane(r.value) && r.value == c.(policies := r.value.policies) && r.value.policies.Keys == c.policies.Keys
    ensures r.Some? ==> forall k :: k in c.policies ==>
              var own := c.policies[k].mode != LastKnownGood || c.policies[k].maxStaleness > 0;
              r.value.policies[k] == if own then c.policies[k] else c.policies[k].(maxStaleness := c.maxStaleness)
  {
    if !IdentityOk(c.tenant) || !IdentityOk(c.replica) { return None; }
    if c.refreshInterval <= 0 || c.minRefreshInterval <= 0 || c.minRefreshInterval > c.refreshInterval { return None; }
    if c.maxRefreshJitter < 0 || c.maxFutureSkew < 0 || c.loadTimeout <= 0 { return None; }
    if c.freshFor <= 0 || c.maxStaleness < c.freshFor { return None; }
    if c.maxRefreshJitter > MAX_DURATION - c.refreshInterval { return None; }
    var bound := c.refreshInterval + c.maxRefreshJitter;
    if c.loadTimeout > MAX_DURATION - bound { return None; }
    if c.convergenceWindow < bound + c.loadTimeout { return None; }
    if c.maxWaiters <= 0 || c.maxProviderLoads <= 0 || c.maxConcurrentLoads <= 0 || c.maxStreams <= 0 || c.maxPolicies <= 0 { return None; }
    if c.maxWaiters > 65_536 || c.maxProviderLoads > 1_024 || c.maxConcurrentLoads > 1_024 || c.maxStreams > 10_000
       || c.maxPolicies > defaults.maxFeatures { return None; }
    if |c.policies| > c.maxPolicies { return None; }
    var policies := CopyPolicies(defaults, c);
    if policies == None { return None; }
    r := Some(c.(policies := policies.value));
  }

  // ---- Candidates ----

  /** `limits` are the ones the candidate's snapshot was built with; it is checked and evaluated under them. */
  datatype Candidate = Candidate(
    snapshot: Option<Snapshot>, limits: Limits, revision: string, provenance: string, sourceTime: int)

  function Under(env: Env, limits: Limits): (r: Env) { env.(limits := limits) }

  /** No older than the bound; a bound of the largest duration is met by every age. */
  predicate Young(bound: int, at: int, since: int) { 0 <= bound && (bound >= MAX_DURATION || at <= since + bound) }

  datatype CandidateError = MalformedSnapshot | NoUsableSnapshot | SnapshotFuture | SnapshotStale

  /** The checks before the graph is rebuilt, in order. */
  function EarlyProblem(c: Config, x: Candidate, now: int, allowStale: bool): (e: Option<CandidateError>)
    ensures e == None ==>
              && x.snapshot.Some? && x.sourceTime != 0 && x.sourceTime <= now + c.maxFutureSkew
              && (c.maxStaleness < MAX_DURATION ==> now <= x.sourceTime + (if c.maxStaleness >= 0 then c.maxStaleness else 0))
  {
    if !IdentityOk(x.revision) || !IdentityOk(x.provenance) then Some(MalformedSnapshot)
    else if x.sourceTime == 0 || x.snapshot == None || x.snapshot.value.tenant != c.tenant then Some(MalformedSnapshot)
    else if !c.allowEmpty && |x.snapshot.value.definitions| == 0 then Some(NoUsableSnapshot)
    else if x.sourceTime > now + c.maxFutureSkew then Some(SnapshotFuture)
    else
      var age := Age(now, x.sourceTime);
      if age > c.maxStaleness || (!allowStale && age > c.freshFor) then Some(SnapshotStale) else None
  }

  /** Accepted for activation at `now`, for one visiting order of its features. */
  ghost predicate Usable(env: Env, c: Config, x: Candidate, now: int, allowStale: bool, order: seq<string>) {
    && EarlyProblem(c, x, now, allowStale) == None
    && Elements(order) == x.snapshot.value.definitions.Keys
    && GraphAccepted(Under(env, x.limits), x.snapshot.value.definitions, x.snapshot.value.groups, order)
  }

  /** The order is an enumeration of the features whenever the graph is checked at all. */
  ghost predicate Visits(c: Config, x: Candidate, now: int, allowStale: bool, order: seq<string>) {
    EarlyProblem(c, x, now, allowStale) == None ==> Elements(order) == x.snapshot.value.definitions.Keys
  }

  datatype Installed = Installed(
    snapshot: Snapshot, limits: Limits, revision: string, provenance: string, sourceTime: int, activatedAt: int)

  function InstalledFrom(c: Config, x: Candidate, now: int): (r: Installed)
    requires x.snapshot.Some?
  {
    Installed(x.snapshot.value.(tenant := c.tenant), x.limits, x.revision, x.provenance, x.sourceTime, now)
  }

  /** The active snapshot's own limits, or the defaults when there is none. */
  function EnvOf(env: Env, active: Option<Installed>): (r: Env) { if active.Some? then Under(env, active.value.limits) else env }

  // ---- Shared state and the regions under its lock ----

  datatype Condition = ColdState | ReadyState | DegradedState | StoppedState

  datatype Shared = Shared(
    lastObservedAt: int, active: Option<Installed>, state: Condition, refresh: Option<nat>, nextFlight: nat, waiters: nat,
    lastRefreshAt: int, closed: bool)

  const COLD := Shared(0, None, ColdState, None, 0, 0, 0, false)

  /** Fleet time never goes back. */
  function FleetTime(s: Shared, reading: int): (now: int)
    ensures now >= s.lastObservedAt
  {
    if reading < s.lastObservedAt then s.lastObservedAt else reading
  }

  datatype Admission = Closed | WaiterLimit | Follow(flight: nat) | Defer(active: Option<Installed>) | Lead(flight: nat)

  function AdmissionOf(c: Config, s: Shared, now: int): (a: Admission) {
    if s.closed then Closed
    else if s.refresh.Some? then if s.waiters >= c.maxWaiters then WaiterLimit else Follow(s.refresh.value)
    else if s.lastRefreshAt != 0 && Age(now, s.lastRefreshAt) < c.minRefreshInterval then Defer(s.active)
    else Lead(s.nextFlight)
  }

  function Admitted(c: Config, s: Shared, now: int): (r: Shared) {
    match AdmissionOf(c, s, now)
    case Follow(_) => s.(waiters := s.waiters + 1)
    case Lead(flight) => s.(refresh := Some(flight), nextFlight := flight + 1, lastRefreshAt := now)
    case _ => s
  }

  datatype Installation = Done | FleetStopped | Reordered

  function InstallationOf(s: Shared, x: Installed): (i: Installation) {
    if s.closed then FleetStopped
    else if s.active.Some? && x.sourceTime < s.active.value.sourceTime then Reordered
    else Done
  }

  function InstalledNow(c: Config, s: Shared, x: Installed, now: int): (r: Shared) {
    if InstallationOf(s, x) != Done then s
    else s.(active := Some(x), state := if Age(now, x.sourceTime) > c.freshFor then DegradedState else ReadyState)
  }

  function DegradedIfStale(c: Config, s: Shared, now: int): (r: Shared)
    ensures r == s.(state := r.state)
  {
    if !s.closed && s.active.Some? && Age(now, s.active.value.sourceTime) > c.freshFor then s.(state := DegradedState) else s
  }

  function FlightOver(c: Config, s: Shared, failed: bool, now: int): (r: Shared) {
    (if failed then DegradedIfStale(c, s, now) else s).(refresh := None)
  }

  /** The state a status report gives: retained state ages into degradation without any step. */
  function ReportedState(c: Config, s: Shared, now: int): (r: Condition) {
    if s.active.Some? && s.state != StoppedState && Age(now, s.active.value.sourceTime) > c.freshFor then DegradedState else s.state
  }

  datatype Report = Report(state: Condition, revision: string, provenance: string, age: nat, refreshing: bool, waiters: nat)

  function ReportOf(c: Config, s: Shared, now: int): (r: Report) {
    match s.active
    case None => Report(s.state, "", "", 0, s.refresh.Some?, s.waiters)
    case Some(x) =>
      Report(ReportedState(c, s, now), x.revision, x.provenance, Age(now, x.sourceTime), s.refresh.Some?, s.waiters)
  }

  function StoppedNow(s: Shared): (r: Shared) { if s.closed then s else s.(closed := true, state := StoppedState) }

  // ---- Activation and an undisturbed refresh ----

  ghost function ActivationOf(
    env: Env, c: Config, s: Shared, x: Candidate, reading: int, allowStale: bool, order: seq<string>): (r: Option<Installed>)
  {
    var now := FleetTime(s, reading);
    if Usable(env, c, x, now, allowStale, order) && InstallationOf(s, InstalledFrom(c, x, now)) == Done then
      Some(InstalledFrom(c, x, now))
    else None
  }

  ghost function Activated(
    env: Env, c: Config, s: Shared, x: Candidate, reading: int, allowStale: bool, order: seq<string>): (r: Shared)
  {
    var now := FleetTime(s, reading);
    var before := s.(lastObservedAt := now);
    if Usable(env, c, x, now, allowStale, order) then InstalledNow(c, before, InstalledFrom(c, x, now), now) else before
  }

  lemma UsableHasSnapshot(env: Env, c: Config, x: Candidate, now: int, allowStale: bool, order: seq<string>)
    ensures Usable(env, c, x, now, allowStale, order) ==> x.snapshot.Some?
  {
  }

  ghost function SomeVisit(c: Config, x: Option<Candidate>, now: int): (order: seq<string>)
    ensures x.Some? ==> Visits(c, x.value, now, false, order)
  {
    if x.Some? && x.value.snapshot.Some? then Ascending(StringLeq, x.value.snapshot.value.definitions.Keys) else []
  }

  datatype Disposition = Replaced | Unchanged | Deferred

  datatype RefreshReply =
    | RefreshStopped
    | TooManyWaiters
    | GaveUp
    | RefreshResult(active: Option<Installed>, disposition: Disposition, failed: bool)

  /** A refresh that no other call interrupts, built from the regions that interleave in general. */
  ghost function RefreshedAlone(
    env: Env, c: Config, s: Shared, reading: int, loaded: Option<Candidate>, stampedAt: int, completedAt: int, order: seq<string>)
    : (r: (Shared, RefreshReply))
  {
    var now := FleetTime(s, reading);
    var before := s.(lastObservedAt := now);
    var entered := Admitted(c, before, now);
    match AdmissionOf(c, before, now)
    case Closed => (before, RefreshStopped)
    case WaiterLimit => (before, TooManyWaiters)
    case Follow(_) => (before, GaveUp)
    case Defer(current) => (before, RefreshResult(current, Deferred, false))
    case Lead(_) =>
      var installed := if loaded.Some? then ActivationOf(env, c, entered, loaded.value, stampedAt, false, order) else None;
      var worked := if loaded.Some? then Activated(env, c, entered, loaded.value, stampedAt, false, order) else entered;
      var completed := FleetTime(worked, completedAt);
      var after := FlightOver(c, worked.(lastObservedAt := completed), installed == None, completed);
      (after,
       match installed
       case None => RefreshResult(s.active, Unchanged, true)
       case Some(x) =>
         RefreshResult(installed, if s.active.Some? && s.active.value.revision == x.revision then Unchanged else Replaced, false))
  }

  /**
   * A refresh retains the current snapshot unless a complete replacement was validated: on failure the active
   * snapshot is the one it found, on success it is the loaded one, no older than before and fresh when stamped. It
   * leaves no flight and no waiter behind, a failure over a stale snapshot degrades the fleet, and a deferred or refused
   * refresh changes nothing but the clock.
   */
  lemma RefreshKeepsOrReplaces(
    env: Env, c: Config, s: Shared, reading: int, loaded: Option<Candidate>, stampedAt: int, completedAt: int, order: seq<string>)
    ensures var (after, r) := RefreshedAlone(env, c, s, reading, loaded, stampedAt, completedAt, order);
            && after.waiters == s.waiters && after.refresh == s.refresh && after.closed == s.closed
            && after.lastObservedAt >= s.lastObservedAt
            && (r.RefreshResult? ==> after.active == r.active)
            && (!r.RefreshResult? || r.failed || r.disposition == Deferred ==> after.active == s.active)
            && (r.RefreshResult? && !r.failed && r.disposition != Deferred ==>
                  && loaded.Some? && r.active.Some? && r.active.value.snapshot.tenant == c.tenant
                  && r.active.value.revision == loaded.value.revision && r.active.value.sourceTime == loaded.value.sourceTime
                  && (s.active.Some? ==> s.active.value.sourceTime <= loaded.value.sourceTime)
                  && Age(r.active.value.activatedAt, loaded.value.sourceTime) <= c.freshFor
                  && (r.disposition == Unchanged <==> s.active.Some? && s.active.value.revision == loaded.value.revision))
            && (!r.RefreshResult? || r.disposition == Deferred ==> after == s.(lastObservedAt := after.lastObservedAt))
            && (r == RefreshStopped <==> s.closed)
            && (Sane(c) && r.RefreshResult? && r.failed && r.disposition != Deferred ==>
                  after.state == if s.active.Some? && !Young(c.freshFor, after.lastObservedAt, s.active.value.sourceTime)
                                 then DegradedState else s.state)
  {
    hide GraphAccepted;
  }

  /**
   * When an activation succeeds, and what it leaves: a complete candidate of this tenant, from a source time neither
   * too far ahead, too old nor behind the active one, becomes active; a failed one changes nothing but the clock.
   */
  lemma ActivationSucceedsExactlyWhen(
    env: Env, c: Config, s: Shared, x: Candidate, reading: int, allowStale: bool, order: seq<string>)
    requires Sane(c)
    ensures var r, after := ActivationOf(env, c, s, x, reading, allowStale, order), Activated(env, c, s, x, reading, allowStale, order);
            var now := if reading < s.lastObservedAt then s.lastObservedAt else reading;
            && (r.Some? <==>
                  && !s.closed && IdentityOk(x.revision) && IdentityOk(x.provenance)
                  && x.snapshot.Some? && x.snapshot.value.tenant == c.tenant && (c.allowEmpty || |x.snapshot.value.definitions| > 0)
                  && x.sourceTime != 0 && x.sourceTime <= now + c.maxFutureSkew
                  && Young(c.maxStaleness, now, x.sourceTime) && (allowStale || Young(c.freshFor, now, x.sourceTime))
                  && (s.active.Some? ==> s.active.value.sourceTime <= x.sourceTime)
                  && Elements(order) == x.snapshot.value.definitions.Keys
                  && GraphAccepted(Under(env, x.limits), x.snapshot.value.definitions, x.snapshot.value.groups, order))
            && (r == None ==> after == s.(lastObservedAt := now))
            && (r.Some? ==>
                  && r == Some(Installed(x.snapshot.value.(tenant := c.tenant), x.limits, x.revision, x.provenance, x.sourceTime, now))
                  && after == s.(lastObservedAt := now, active := r,
                                 state := if Young(c.freshFor, now, x.sourceTime) then ReadyState else DegradedState))
  {
    hide GraphAccepted, IdentityOk;
  }

  /** Who may refresh: nobody once stopped, followers up to the limit, and a leader no sooner than the minimum interval. */
  lemma RefreshIsAdmittedExactlyWhen(
    env: Env, c: Config, s: Shared, reading: int, loaded: Option<Candidate>, stampedAt: int, completedAt: int, order: seq<string>)
    requires Sane(c)
    ensures var r := RefreshedAlone(env, c, s, reading, loaded, stampedAt, completedAt, order).1;
            var now := if reading < s.lastObservedAt then s.lastObservedAt else reading;
            && (r == RefreshStopped <==> s.closed)
            && (r == TooManyWaiters <==> !s.closed && s.refresh.Some? && s.waiters >= c.maxWaiters)
            && (r == GaveUp <==> !s.closed && s.refresh.Some? && s.waiters < c.maxWaiters)
            && (r == RefreshResult(s.active, Deferred, false) <==>
                  !s.closed && s.refresh == None && s.lastRefreshAt != 0 && now < s.lastRefreshAt + c.minRefreshInterval)
  {
    hide ActivationOf, Activated;
  }

  // ---- Degraded answers ----

  datatype Basis =
    | FromSnapshot(installed: Installed, at: int, degraded: bool)
    | AlwaysTrue
    | Configured(value: Value)
    | StaleRefusal
    | TypeRefusal
    | ValueRefusal

  /** What an evaluation is answered from, given fleet time at the freshness check and at the policy check. */
  function BasisOf(env: Env, c: Config, active: Option<Installed>, key: string, expected: Type, first: int, second: int): (b: Basis)
    ensures b.FromSnapshot? ==> active == Some(b.installed)
  {
    if active.Some? && Age(first, active.value.sourceTime) <= c.freshFor then FromSnapshot(active.value, first, false)
    else if key !in c.policies then StaleRefusal
    else
      var p := c.policies[key];
      match p.mode
      case FailClosed => StaleRefusal
      case FailOpen => if expected != BooleanType then TypeRefusal else AlwaysTrue
      case UseDefault =>
        if p.default.Type() != expected then TypeRefusal
        else if !ValidValue(EnvOf(env, active), p.default) then ValueRefusal
        else Configured(p.default)
      case LastKnownGood =>
        if active == None || Age(second, active.value.sourceTime) > p.maxStaleness then StaleRefusal
        else FromSnapshot(active.value, second, true)
      case UnknownMode => StaleRefusal
  }

  /**
   * The flag is answered from the active snapshot whatever its age: a bound of the largest duration is met by every
   * age, because ages saturate there.
   */
  predicate Ageless(c: Config, key: string) {
    || c.freshFor >= MAX_DURATION
    || (key in c.policies && c.policies[key].mode == LastKnownGood && c.policies[key].maxStaleness >= MAX_DURATION)
  }

  ghost predicate Limited(c: Config) { forall key :: !Ageless(c, key) }

  /**
   * A value taken from a snapshot is never older than the fleet's bound when bounds are below the largest duration,
   * synthesized values always have the requested type, and a security-sensitive flag is never synthesized.
   */
  lemma BasisIsBounded(env: Env, c: Config, active: Option<Installed>, key: string, expected: Type, first: int, second: int)
    requires Sane(c)
    ensures var b := BasisOf(env, c, active, key, expected, first, second);
            && (b.FromSnapshot? ==> active == Some(b.installed) && b.at in {first, second})
            && (b.FromSnapshot? && Limited(c) ==> b.at <= b.installed.sourceTime + c.maxStaleness)
            && (b.FromSnapshot? && Limited(c) && !b.degraded ==> b.at <= b.installed.sourceTime + c.freshFor)
            && (b.AlwaysTrue? ==> expected == BooleanType)
            && (b.Configured? ==> b.value.Type() == expected && ValidValue(EnvOf(env, active), b.value))
            && (key in c.policies && c.policies[key].securitySensitive ==> !b.AlwaysTrue? && !b.Configured?)
  {
    hide ValidValue;
    if Limited(c) { assert !Ageless(c, key); }
  }

  /** Below the largest duration the fleet's own bound is enough to see that ages are limited. */
  lemma StalenessLimits(c: Config)
    requires Sane(c) && c.maxStaleness < MAX_DURATION
    ensures Limited(c)
  {
  }

  lemma AgelessAnswersAtAnyAge(env: Env, c: Config, x: Installed, key: string, expected: Type, at: int)
    requires Sane(c) && Ageless(c, key)
    ensures var b := BasisOf(env, c, Some(x), key, expected, at, at); b.FromSnapshot? && b.installed == x && b.at == at
  {
    hide ValidValue;
  }

  datatype FleetReply =
    | Answered(outcome: Outcome)
    | Synthesized(value: Value, reason: Reason)
    | Refused(basis: Basis)
    | WrongTenant
    | BadContext

  function Relabelled(o: Outcome, degraded: bool): (r: Outcome) {
    if degraded && o.Selected? then Selected(o.selection.(reason := DegradedLastKnownGood)) else o
  }

  ghost predicate SoundlyInstalled(env: Env, x: Installed) { Sound(Under(env, x.limits), x.snapshot) }

  lemma UsableIsSound(env: Env, c: Config, x: Candidate, now: int, allowStale: bool, order: seq<string>)
    requires Usable(env, c, x, now, allowStale, order)
    ensures SoundlyInstalled(env, InstalledFrom(c, x, now))
  {
    hide GraphAccepted, Sound;
    AcceptedIsSound(Under(env, x.limits), x.snapshot.value.definitions, x.snapshot.value.groups, c.tenant, order);
  }

  /** The snapshot's own answer, under its own limits. */
  ghost function OwnAnswer(env: Env, x: Installed, key: string, expected: Type, ctx: Context): (o: Outcome)
    requires SoundlyInstalled(env, x)
  {
    SoundIsWalkable(Under(env, x.limits), x.snapshot);
    Answer(Under(env, x.limits), x.snapshot, key, expected, ctx)
  }

  ghost function SnapshotReply(env: Env, x: Installed, degraded: bool, key: string, expected: Type, ctx: Context): (r: FleetReply)
    requires SoundlyInstalled(env, x)
  {
    Answered(Relabelled(OwnAnswer(env, x, key, expected, ctx), degraded))
  }

  /** What an evaluation answers: the request's checks, then the basis. */
  ghost function ReplyOf(
    env: Env, c: Config, active: Option<Installed>, key: string, expected: Type, ctx: Context, first: int, second: int): (r: FleetReply)
    requires active.Some? ==> SoundlyInstalled(env, active.value)
  {
    if ctx.tenant != c.tenant then WrongTenant
    else if !ValidContext(EnvOf(env, active), ctx) then BadContext
    else
      match BasisOf(env, c, active, key, expected, first, second)
      case FromSnapshot(_, _, degraded) => SnapshotReply(env, active.value, degraded, key, expected, ctx)
      case AlwaysTrue => Synthesized(BooleanValue(true), DegradedFailOpen)
      case Configured(v) => Synthesized(v, DegradedDefault)
      case b => Refused(b)
  }

  /** The value and variant of the snapshot's answer, with the reason of a degraded one; its errors are passed on. */
  ghost predicate DegradedFrom(o: Outcome, r: FleetReply) {
    && r.Answered?
    && match o
       case Failed(e) => r.outcome == Failed(e)
       case Selected(own) =>
         && r.outcome.Selected? && r.outcome.selection.reason == DegradedLastKnownGood
         && r.outcome.selection.value == own.value && r.outcome.selection.variant == own.variant
         && r.outcome.selection.matched == own.matched && r.outcome.selection.version == own.version
         && r.outcome.selection.diagnostics == own.diagnostics
  }

  /** The request belongs to the fleet's tenant and is valid, but what is active, if anything, is no longer fresh. */
  ghost predicate Stale(env: Env, c: Config, active: Option<Installed>, ctx: Context, first: int) {
    && ctx.tenant == c.tenant && ValidContext(EnvOf(env, active), ctx)
    && (active.Some? ==> !Young(c.freshFor, first, active.value.sourceTime))
  }

  /** What a stale flag is answered under its policy. */
  ghost predicate PolicyReply(
    env: Env, p: FlagPolicy, active: Option<Installed>, key: string, expected: Type, ctx: Context, second: int, r: FleetReply)
    requires active.Some? ==> SoundlyInstalled(env, active.value)
  {
    match p.mode
    case FailClosed => r == Refused(StaleRefusal)
    case UnknownMode => r == Refused(StaleRefusal)
    case FailOpen =>
      && (expected == BooleanType ==> r == Synthesized(BooleanValue(true), DegradedFailOpen))
      && (expected != BooleanType ==> r == Refused(TypeRefusal))
    case UseDefault =>
      && (p.default.Type() != expected ==> r == Refused(TypeRefusal))
      && (p.default.Type() == expected && !ValidValue(EnvOf(env, active), p.default) ==> r == Refused(ValueRefusal))
      && (p.default.Type() == expected && ValidValue(EnvOf(env, active), p.default) ==> r == Synthesized(p.default, DegradedDefault))
    case LastKnownGood =>
      if active.Some? && Young(p.maxStaleness, second, active.value.sourceTime)
      then DegradedFrom(OwnAnswer(env, active.value, key, expected, ctx), r)
      else r == Refused(StaleRefusal)
  }

  /** What a request is answered, given fleet time at the freshness check and at the policy check. */
  ghost predicate Promised(
    env: Env, c: Config, active: Option<Installed>, key: string, expected: Type, ctx: Context, first: int, second: int, r: FleetReply)
    requires active.Some? ==> SoundlyInstalled(env, active.value)
  {
    && (r == WrongTenant <==> ctx.tenant != c.tenant)
    && (r == BadContext <==> ctx.tenant == c.tenant && !ValidContext(EnvOf(env, active), ctx))
    && (ctx.tenant == c.tenant && ValidContext(EnvOf(env, active), ctx) && !Stale(env, c, active, ctx, first) ==>
          r == Answered(OwnAnswer(env, active.value, key, expected, ctx)))
    && (Stale(env, c, active, ctx, first) ==>
          if key in c.policies then PolicyReply(env, c.policies[key], active, key, expected, ctx, second, r)
          else r == Refused(StaleRefusal))
  }

  /**
   * A fresh snapshot answers for itself; a stale one only as the flag's policy says, and without a policy not at all.
   */
  lemma RepliesFollowThePolicy(
    env: Env, c: Config, active: Option<Installed>, key: string, expected: Type, ctx: Context, first: int, second: int)
    requires active.Some? ==> SoundlyInstalled(env, active.value)
    ensures Promised(env, c, active, key, expected, ctx, first, second, ReplyOf(env, c, active, key, expected, ctx, first, second))
  {
    hide SoundlyInstalled, OwnAnswer, ValidContext, ValidValue;
  }

  /** Read backwards: a flag with a policy is degraded each way only where its mode, the type and the bound allow it. */
  lemma DegradedAnswersExactlyWhen(
    env: Env, c: Config, active: Option<Installed>, key: string, expected: Type, ctx: Context, first: int, second: int, r: FleetReply)
    requires active.Some? ==> SoundlyInstalled(env, active.value)
    requires key in c.policies && Promised(env, c, active, key, expected, ctx, first, second, r)
    ensures var p, stale := c.policies[key], Stale(env, c, active, ctx, first);
            && (r == Synthesized(BooleanValue(true), DegradedFailOpen) <==> stale && p.mode == FailOpen && expected == BooleanType)
            && (r == Synthesized(p.default, DegradedDefault)
                <==> stale && p.mode == UseDefault && p.default.Type() == expected && ValidValue(EnvOf(env, active), p.default))
            && (stale && r.Answered?
                <==> stale && p.mode == LastKnownGood && active.Some? && Young(p.maxStaleness, second, active.value.sourceTime))
  {
    hide SoundlyInstalled, OwnAnswer, ValidContext, ValidValue;
  }

  // ---- The fleet object ----

  class Fleet {
    const env: Env
    const config: Config
    var lastObservedAt: int
    var active: Option<Installed>
    var state: Condition
    var refresh: Option<nat>
    var nextFlight: nat
    var waiters: nat
    var lastRefreshAt: int
    var closed: bool

    /** What is active was accepted under its own limits. */
    ghost predicate Valid()
      reads this
    {
      active.Some? ==> SoundlyInstalled(env, active.value)
    }

    constructor (env: Env, config: Config)
      ensures Valid() && this.env == env && this.config == config && View() == COLD
    {
      this.env, this.config := env, config;
      lastObservedAt, active, state, refresh := 0, None, ColdState, None;
      nextFlight, waiters, lastRefreshAt, closed := 0, 0, 0, false;
    }

    function View(): (s: Shared)
      reads this
    {
      Shared(lastObservedAt, active, state, refresh, nextFlight, waiters, lastRefreshAt, closed)
    }

    method Now(reading: int) returns (now: int)
      modifies `lastObservedAt
      ensures now == FleetTime(old(View()), reading) == lastObservedAt
    {
      now := reading;
      if now < lastObservedAt { now := lastObservedAt; } else { lastObservedAt := now; }
    }

    /** The first region of a refresh: refuse, attach to the flight, defer, or become its leader. */
    method Admit(now: int) returns (a: Admission)
      modifies this
      ensures a == AdmissionOf(config, old(View()), now) && View() == Admitted(config, old(View()), now)
    {
      if closed { return Closed; }
      if refresh.Some? {
        if waiters >= config.maxWaiters { return WaiterLimit; }
        waiters := waiters + 1;
        return Follow(refresh.value);
      }
      if lastRefreshAt != 0 && Age(now, lastRefreshAt) < config.minRefreshInterval { return Defer(active); }
      a := Lead(nextFlight);
      refresh := Some(nextFlight);
      nextFlight := nextFlight + 1;
      lastRefreshAt := now;
    }

    /** A follower leaves: its flight is over, or its own context was cancelled. */
    method Detach()
      requires waiters > 0
      modifies `waiters
      ensures View() == old(View()).(waiters := old(waiters) - 1)
    {
      waiters := waiters - 1;
    }

    method FinishFlight(failed: bool, completedAt: int)
      modifies this
      ensures View() == FlightOver(config, old(View()), failed, completedAt)
    {
      if failed { DegradeIfStale(completedAt); }
      refresh := None;
    }

    method DegradeIfStale(now: int)
      modifies `state
      ensures View() == DegradedIfStale(config, old(View()), now)
    {
      if closed { return; }
      if active == None { return; }
      if Age(now, active.value.sourceTime) > config.freshFor { state := DegradedState; }
    }

    method Status(reading: int) returns (r: Report)
      modifies `lastObservedAt
      ensures View() == old(View()).(lastObservedAt := FleetTime(old(View()), reading))
      ensures r == ReportOf(config, View(), lastObservedAt)
    {
      var now := Now(reading);
      r := Report(state, "", "", 0, refresh.Some?, waiters);
      if active.Some? {
        r := r.(revision := active.value.revision, provenance := active.value.provenance, age := Age(now, active.value.sourceTime));
        if r.state != StoppedState && r.age > config.freshFor { r := r.(state := DegradedState); }
      }
    }

    method MarkStopped()
      modifies this
      ensures View() == StoppedNow(old(View()))
    {
      if closed { return; }
      closed := true;
      state := StoppedState;
    }

    /** Rebuilds and checks the graph of a candidate under the candidate's limits. */
    method ValidateCandidate(x: Candidate, now: int, allowStale: bool) returns (r: Option<Snapshot>, ghost order: seq<string>)
      requires x.snapshot.Some? ==> WellKeyed(x.snapshot.value)
      ensures Visits(config, x, now, allowStale, order)
      ensures r.Some? <==> Usable(env, config, x, now, allowStale, order)
      ensures r.Some? ==> r.value == x.snapshot.value.(tenant := config.tenant) && Sound(Under(env, x.limits), r.value)
    {
      order := [];
      var problem := EarlyProblem(config, x, now, allowStale);
      if problem.Some? { return None, order; }
      var definitions := ListOf(x.snapshot.value.definitions, DefinitionKey);
      var groups := ListOf(x.snapshot.value.groups, GroupKey);
      r, order := NewSnapshotWithGroups(Under(env, x.limits), definitions, groups);
      if r.Some? {
        AcceptedIsSound(Under(env, x.limits), r.value.definitions, r.value.groups, config.tenant, order);
        r := Some(r.value.(tenant := config.tenant));
      }
    }

    /** Validation outside the lock, then installation under it; an older source or a stopped fleet refuses. */
    method Activate(x: Candidate, reading: int, allowStale: bool) returns (r: Option<Installed>, ghost order: seq<string>)
      requires Valid() && (x.snapshot.Some? ==> WellKeyed(x.snapshot.value))
      modifies this
      ensures Valid()
      ensures Visits(config, x, FleetTime(old(View()), reading), allowStale, order)
      ensures r == ActivationOf(env, config, old(View()), x, reading, allowStale, order)
      ensures View() == Activated(env, config, old(View()), x, reading, allowStale, order)
    {
      hide Usable, Sound, WellKeyed, Visits;
      var now := Now(reading);
      var snapshot;
      snapshot, order := ValidateCandidate(x, now, allowStale);
      UsableHasSnapshot(env, config, x, now, allowStale, order);
      if snapshot == None { return None, order; }
      var installed := Installed(snapshot.value, x.limits, x.revision, x.provenance, x.sourceTime, now);
      if closed { return None, order; }
      if active.Some? && x.sourceTime < active.value.sourceTime { return None, order; }
      active := Some(installed);
      state := ReadyState;
      if Age(now, installed.sourceTime) > config.freshFor { state := DegradedState; }
      return Some(installed), order;
    }

    /**
     * A refresh during which no other call enters the fleet: a follower can then only be cancelled, and a leader
     * loads, activates and ends its flight.
     */
    method Refresh(reading: int, loaded: Option<Candidate>, stampedAt: int, completedAt: int)
      returns (r: RefreshReply, ghost order: seq<string>)
      requires Valid() && (loaded.Some? && loaded.value.snapshot.Some? ==> WellKeyed(loaded.value.snapshot.value))
      modifies this
      ensures Valid()
      ensures loaded.Some? ==>
                var asked := old(View()).(lastObservedAt := FleetTime(old(View()), reading));
                Visits(config, loaded.value, FleetTime(asked, stampedAt), false, order)
      ensures (View(), r) == RefreshedAlone(env, config, old(View()), reading, loaded, stampedAt, completedAt, order)
    {
      hide ActivationOf, Activated, WellKeyed, Visits, Sound;
      var now := Now(reading);
      order := SomeVisit(config, loaded, FleetTime(View(), stampedAt));
      var a := Admit(now);
      match a
      case Closed => return RefreshStopped, order;
      case WaiterLimit => return TooManyWaiters, order;
      case Follow(_) =>
        Detach();
        return GaveUp, order;
      case Defer(current) => return RefreshResult(current, Deferred, false), order;
      case Lead(_) =>
        var previous := active;
        var installed := None;
        if loaded.Some? { installed, order := Activate(loaded.value, stampedAt, false); }
        var completed := Now(completedAt);
        FinishFlight(installed == None, completed);
        if installed == None { return RefreshResult(previous, Unchanged, true), order; }
        var same := previous.Some? && previous.value.revision == installed.value.revision;
        return RefreshResult(installed, if same then Unchanged else Replaced, false), order;
    }

    method EvaluateInstalled(x: Installed, degraded: bool, key: string, expected: Type, ctx: Context) returns (r: FleetReply)
      requires SoundlyInstalled(env, x)
      ensures r == SnapshotReply(env, x, degraded, key, expected, ctx)
    {
      hide Walkable, Answer, Sound;
      var here := Under(env, x.limits);
      SoundIsWalkable(here, x.snapshot);
      var o := Evaluator.Evaluate(here, x.snapshot, key, expected, ctx);
      r := Answered(Relabelled(o, degraded));
    }

    /** The active snapshot when fresh enough, otherwise the flag's policy; the clock is read again for last-known-good. */
    method Decide(current: Option<Installed>, key: string, expected: Type, reading: int, later: int) returns (b: Basis)
      modifies `lastObservedAt
      ensures lastObservedAt >= old(lastObservedAt)
      ensures var first := FleetTime(old(View()), reading);
              b == BasisOf(env, config, current, key, expected, first, if later < first then first else later)
    {
      hide ValidValue;
      var now := Now(reading);
      if current.Some? && Age(now, current.value.sourceTime) <= config.freshFor { return FromSnapshot(current.value, now, false); }
      if key !in config.policies { return StaleRefusal; }
      var p := config.policies[key];
      match p.mode
      case FailClosed => return StaleRefusal;
      case FailOpen => return if expected != BooleanType then TypeRefusal else AlwaysTrue;
      case UseDefault =>
        if p.default.Type() != expected { return TypeRefusal; }
        if !ValidValue(EnvOf(env, current), p.default) { return ValueRefusal; }
        return Configured(p.default);
      case LastKnownGood =>
        var again := Now(later);
        if current == None || Age(again, current.value.sourceTime) > p.maxStaleness { return StaleRefusal; }
        return FromSnapshot(current.value, again, true);
      case UnknownMode => return StaleRefusal;
    }

    method Reply(key: string, expected: Type, ctx: Context, reading: int, later: int) returns (r: FleetReply)
      requires Valid()
      modifies `lastObservedAt
      ensures Valid() && lastObservedAt >= old(lastObservedAt)
      ensures var first := FleetTime(old(View()), reading);
              r == ReplyOf(env, config, active, key, expected, ctx, first, if later < first then first else later)
    {
      hide SnapshotReply, ValidContext, SoundlyInstalled, BasisOf;
      if ctx.tenant != config.tenant { return WrongTenant; }
      var current := active;
      if !ValidContext(EnvOf(env, current), ctx) { return BadContext; }
      var b := Decide(current, key, expected, reading, later);
      match b
      case FromSnapshot(_, _, degraded) =>
        r := EvaluateInstalled(current.value, degraded, key, expected, ctx);
      case AlwaysTrue => return Synthesized(BooleanValue(true), DegradedFailOpen);
      case Configured(v) => return Synthesized(v, DegradedDefault);
      case _ => return Refused(b);
    }

    method Evaluate(key: string, expected: Type, ctx: Context, reading: int, later: int) returns (r: FleetReply)
      requires Valid()
      modifies `lastObservedAt
      ensures Valid() && lastObservedAt >= old(lastObservedAt)
      ensures var first := FleetTime(old(View()), reading);
              r == ReplyOf(env, config, active, key, expected, ctx, first, if later < first then first else later)
      ensures var first := if reading < old(lastObservedAt) then old(lastObservedAt) else reading;
              Promised(env, config, active, key, expected, ctx, first, if later < first then first else later, r)
    {
      hide Promised, ReplyOf, SoundlyInstalled;
      ghost var first := FleetTime(View(), reading);
      r := Reply(key, expected, ctx, reading, later);
      RepliesFollowThePolicy(env, config, active, key, expected, ctx, first, if later < first then first else later);
    }
  }

  /** Maps of a snapshot hold each item under its own key. */
  ghost predicate WellKeyed(s: Snapshot) {
    (forall k :: k in s.definitions ==> s.definitions[k].key == k) && (forall k :: k in s.groups ==> s.groups[k].key == k)
  }
}
