/** Every interleaving of refreshes, bootstraps, evaluations, clock readings and shutdown in one fleet. */
module FleetRuns {
  import opened Model
  import opened Fleet

  // ---- Calls in progress ----

  /** Where a load-and-activate piece of work stands. */
  datatype Work =
    | NotStarted
    | NotLoaded
    | InLoad
    | Got(candidate: Candidate)
    | Stamped(installed: Installed)
    | Ended(active: Option<Installed>)

  /** What a finished flight publishes: the state it leaves active, or a failure with the state it found. */
  datatype FlightResult = FlightResult(active: Option<Installed>, failed: bool)

  datatype Thread =
    | Asking(now: int)
    | Waiting(flight: nat)
    | Leading(flight: nat, previous: Option<Installed>, work: Work)
    | Closing(flight: nat)
    | Booting(work: Work)
    | Reading(active: Option<Installed>)
    | Noting(now: int)
    | Over
    | Followed(flight: nat, result: FlightResult)
    | Led(flight: nat, result: FlightResult)

  /** A value computed from a snapshot at fleet time `at`. */
  datatype Serving = Serving(installed: Installed, at: int)

  /**
   * The shared fields; every call; the results of finished flights; who holds each of the four wait groups; who is
   * attached as a follower; who leads; which member of the run group is the watcher; how far shutdown has waited; and
   * the admissions and servings so far.
   */
  datatype World = World(
    shared: Shared, threads: map<nat, Thread>, results: map<nat, FlightResult>, followers: set<nat>, leader: Option<nat>,
    refreshers: set<nat>, loaders: set<nat>, booters: set<nat>, runners: set<nat>, watcher: Option<nat>, started: bool, waited: nat,
    admissions: seq<int>, servings: seq<Serving>)

  const INITIAL := World(COLD, map[], map[], {}, None, {}, {}, {}, {}, None, false, 0, [], [])

  datatype Event =
    | Ask(caller: nat, reading: int)
    | Enter(caller: nat)
    | Wake(caller: nat)
    | Cancel(caller: nat)
    | Prepare(caller: nat)
    | Boot(caller: nat)
    | StartLoad(caller: nat)
    | EndLoad(caller: nat, loaded: Option<Candidate>)
    | Stamp(caller: nat, reading: int, order: seq<string>)
    | Install(caller: nat)
    | UseCache(caller: nat, candidate: Candidate)
    | EndBoot(caller: nat)
    | Finish(caller: nat, reading: int)
    | Release(caller: nat)
    | StartRun(loop: nat, watcher: Option<nat>)
    | EndRun(loop: nat)
    | EndWatch(loop: nat)
    | Note(caller: nat, reading: int)
    | Record(caller: nat)
    | Stop
    | Wait
    | Look(caller: nat)
    | Serve(caller: nat, key: string, expected: Type, reading: int, later: int)

  datatype Setup = Setup(env: Env, config: Config)

  // ---- Steps ----

  function Put(w: World, c: nat, t: Thread): (r: World) { w.(threads := w.threads[c := t]) }

  predicate Working(w: World, c: nat) { c in w.threads && (w.threads[c].Leading? || w.threads[c].Booting?) }

  function WorkOf(w: World, c: nat): (k: Work)
    requires Working(w, c)
  {
    w.threads[c].work
  }

  function SetWork(w: World, c: nat, k: Work): (r: World)
    requires Working(w, c)
  {
    Put(w, c, w.threads[c].(work := k))
  }

  function Tick(w: World, reading: int): (r: World) {
    w.(shared := w.shared.(lastObservedAt := FleetTime(w.shared, reading)))
  }

  /** Bootstraps may be allowed a stale candidate; refreshes never are. */
  predicate AllowStale(s: Setup, w: World, c: nat)
    requires Working(w, c)
  {
    w.threads[c].Booting? && s.config.allowStaleBootstrap
  }

  function AfterAdmission(s: Setup, w: World, c: nat, now: int): (r: World) {
    var shared := Admitted(s.config, w.shared, now);
    match AdmissionOf(s.config, w.shared, now)
    case Follow(f) => Put(w, c, Waiting(f)).(shared := shared, followers := w.followers + {c})
    case Lead(f) =>
      Put(w, c, Leading(f, None, NotStarted)).(
        shared := shared, leader := Some(c), refreshers := w.refreshers + {c}, admissions := w.admissions + [now])
    case _ => Put(w, c, Over).(shared := shared)
  }

  function Detached(w: World, c: nat, t: Thread): (r: World)
    requires w.shared.waiters > 0
  {
    Put(w, c, t).(shared := w.shared.(waiters := w.shared.waiters - 1), followers := w.followers - {c})
  }

  ghost function AfterStamp(s: Setup, w: World, c: nat, reading: int, order: seq<string>): (r: World)
    requires Working(w, c) && WorkOf(w, c).Got?
    ensures Working(r, c) && !WorkOf(r, c).InLoad? && r == SetWork(Tick(w, reading), c, WorkOf(r, c))
  {
    var x, now := WorkOf(w, c).candidate, FleetTime(w.shared, reading);
    if Usable(s.env, s.config, x, now, AllowStale(s, w, c), order) then
      SetWork(Tick(w, reading), c, Stamped(InstalledFrom(s.config, x, now)))
    else SetWork(Tick(w, reading), c, Ended(None))
  }

  function AfterInstall(s: Setup, w: World, c: nat): (r: World)
    requires Working(w, c) && WorkOf(w, c).Stamped?
    ensures Working(r, c) && !WorkOf(r, c).InLoad? && r == SetWork(w, c, WorkOf(r, c)).(shared := r.shared)
    ensures r.shared == w.shared.(active := r.shared.active, state := r.shared.state)
  {
    var x := WorkOf(w, c).installed;
    if InstallationOf(w.shared, x) == Done then
      SetWork(w, c, Ended(Some(x))).(shared := InstalledNow(s.config, w.shared, x, x.activatedAt))
    else SetWork(w, c, Ended(None))
  }

  function AfterFinish(s: Setup, w: World, c: nat, reading: int): (r: World)
    requires c in w.threads && w.threads[c].Leading? && w.threads[c].work.Ended?
  {
    var t := Tick(w, reading);
    var f, outcome := w.threads[c].flight, w.threads[c].work.active;
    var failed := outcome == None;
    Put(t, c, Closing(f)).(
      shared := FlightOver(s.config, t.shared, failed, t.shared.lastObservedAt), leader := None,
      results := w.results[f := FlightResult(if failed then w.threads[c].previous else outcome, failed)])
  }

  /** Shutdown waits for the run loops, the refreshes, the loads and the bootstraps, one group after the other. */
  function AfterWait(w: World): (r: Option<World>) {
    if w.waited == 0 then Some(w.(shared := StoppedNow(w.shared), waited := 1))
    else if w.waited == 1 && w.runners == {} then Some(w.(waited := 2))
    else if w.waited == 2 && w.refreshers == {} then Some(w.(waited := 3))
    else if w.waited == 3 && w.loaders == {} then Some(w.(waited := 4))
    else if w.waited == 4 && w.booters == {} then Some(w.(waited := 5))
    else None
  }

  ghost function AfterServe(s: Setup, w: World, c: nat, key: string, expected: Type, reading: int, later: int): (r: World)
    requires c in w.threads && w.threads[c].Reading?
  {
    var first := FleetTime(w.shared, reading);
    var t := Tick(Tick(w, reading), later);
    var b := BasisOf(s.env, s.config, w.threads[c].active, key, expected, first, t.shared.lastObservedAt);
    Put(t, c, Over).(servings := if b.FromSnapshot? then w.servings + [Serving(b.installed, b.at)] else w.servings)
  }

  /** A refresh: read the clock, enter the lock, follow or lead, publish, release. */
  ghost function RefreshStep(s: Setup, w: World, e: Event): (r: Option<World>) {
    match e
    case Ask(c, reading) =>
      if c in w.threads then None else Some(Put(Tick(w, reading), c, Asking(FleetTime(w.shared, reading))))
    case Enter(c) => if c in w.threads && w.threads[c].Asking? then Some(AfterAdmission(s, w, c, w.threads[c].now)) else None
    case Wake(c) =>
      if c in w.threads && w.threads[c].Waiting? && w.threads[c].flight in w.results && w.shared.waiters > 0 then
        Some(Detached(w, c, Followed(w.threads[c].flight, w.results[w.threads[c].flight])))
      else None
    case Cancel(c) => if c in w.threads && w.threads[c].Waiting? && w.shared.waiters > 0 then Some(Detached(w, c, Over)) else None
    case Prepare(c) =>
      if c in w.threads && w.threads[c].Leading? && w.threads[c].work.NotStarted? then
        Some(Put(w, c, Leading(w.threads[c].flight, w.shared.active, NotLoaded)))
      else None
    case Finish(c, reading) =>
      if c in w.threads && w.threads[c].Leading? && w.threads[c].work.Ended? then Some(AfterFinish(s, w, c, reading)) else None
    case Release(c) =>
      if c in w.threads && w.threads[c].Closing? && w.threads[c].flight in w.results then
        Some(Put(w, c, Led(w.threads[c].flight, w.results[w.threads[c].flight])).(refreshers := w.refreshers - {c}))
      else None
    case _ => None
  }

  /** The work a leader or a bootstrap does: load, stamp and check, install. */
  ghost function WorkStep(s: Setup, w: World, e: Event): (r: Option<World>) {
    match e
    case Boot(c) =>
      if c in w.threads then None
      else if w.shared.closed then Some(Put(w, c, Over))
      else Some(Put(w, c, Booting(NotLoaded)).(booters := w.booters + {c}))
    case StartLoad(c) =>
      if !Working(w, c) || !WorkOf(w, c).NotLoaded? then None
      else if w.shared.closed then Some(SetWork(w, c, Ended(None)))
      else Some(SetWork(w, c, InLoad).(loaders := w.loaders + {c}))
    case EndLoad(c, x) =>
      if !Working(w, c) || !WorkOf(w, c).InLoad? then None
      else Some(SetWork(w, c, if x.Some? then Got(x.value) else Ended(None)).(loaders := w.loaders - {c}))
    case Stamp(c, reading, order) =>
      if Working(w, c) && WorkOf(w, c).Got?
         && Visits(s.config, WorkOf(w, c).candidate, FleetTime(w.shared, reading), AllowStale(s, w, c), order) then
        Some(AfterStamp(s, w, c, reading, order))
      else None
    case Install(c) => if Working(w, c) && WorkOf(w, c).Stamped? then Some(AfterInstall(s, w, c)) else None
    case UseCache(c, x) =>
      if c in w.threads && w.threads[c] == Booting(Ended(None)) then Some(SetWork(w, c, Got(x))) else None
    case EndBoot(c) =>
      if c in w.threads && w.threads[c].Booting? && w.threads[c].work.Ended? then
        Some(Put(w, c, Over).(booters := w.booters - {c}))
      else None
    case _ => None
  }

  /**
   * Run loops, recorded failures, stopping, waiting and evaluation. The refresh loop and the watcher are both in the
   * run group; only the former stops the fleet when it ends. Recording a failure reads the clock and then degrades a
   * stale fleet under the lock.
   */
  ghost function OtherStep(s: Setup, w: World, e: Event): (r: Option<World>) {
    match e
    case StartRun(loop, watcher) =>
      if w.shared.closed || w.started || watcher == Some(loop) then None
      else
        Some(w.(started := true, watcher := watcher, runners := w.runners + {loop} + if watcher.Some? then {watcher.value} else {}))
    case EndRun(loop) =>
      if loop in w.runners && w.watcher != Some(loop) then Some(w.(shared := StoppedNow(w.shared), runners := w.runners - {loop}))
      else None
    case EndWatch(loop) => if w.watcher == Some(loop) then Some(w.(watcher := None, runners := w.runners - {loop})) else None
    case Note(c, reading) =>
      if c in w.threads then None else Some(Put(Tick(w, reading), c, Noting(FleetTime(w.shared, reading))))
    case Record(c) =>
      if c in w.threads && w.threads[c].Noting? then
        Some(Put(w, c, Over).(shared := DegradedIfStale(s.config, w.shared, w.threads[c].now)))
      else None
    case Stop => Some(w.(shared := StoppedNow(w.shared)))
    case Wait => AfterWait(w)
    case Look(c) => if c in w.threads then None else Some(Put(w, c, Reading(w.shared.active)))
    case Serve(c, key, expected, reading, later) =>
      if c in w.threads && w.threads[c].Reading? then Some(AfterServe(s, w, c, key, expected, reading, later)) else None
    case _ => None
  }

  ghost function Step(s: Setup, w: World, e: Event): (r: Option<World>) {
    if RefreshStep(s, w, e).Some? then RefreshStep(s, w, e)
    else if WorkStep(s, w, e).Some? then WorkStep(s, w, e)
    else OtherStep(s, w, e)
  }

  // ---- What every step does to the shared fields ----

  /** Time and source times only move forward, and a stopped fleet stays stopped with its snapshot frozen. */
  ghost predicate Forward(w: World, w': World) {
    && w.shared.lastObservedAt <= w'.shared.lastObservedAt
    && (w.shared.active.Some? ==> w'.shared.active.Some? && w.shared.active.value.sourceTime <= w'.shared.active.value.sourceTime)
    && (w.shared.closed ==> w'.shared.closed && w'.shared.active == w.shared.active)
    && w.waited <= w'.waited && w.admissions <= w'.admissions && w.servings <= w'.servings
  }

  lemma StepsMoveForwardRefresh(s: Setup, w: World, e: Event)
    requires RefreshStep(s, w, e).Some?
    ensures Forward(w, RefreshStep(s, w, e).value)
  {
    hide Usable, Visits, SoundlyInstalled, BasisOf;
  }

  lemma StepsMoveForwardWork(s: Setup, w: World, e: Event)
    requires WorkStep(s, w, e).Some?
    ensures Forward(w, WorkStep(s, w, e).value)
  {
    hide Usable, Visits, SoundlyInstalled, BasisOf;
  }

  lemma StepsMoveForwardOther(s: Setup, w: World, e: Event)
    requires OtherStep(s, w, e).Some?
    ensures Forward(w, OtherStep(s, w, e).value)
  {
    hide Usable, Visits, SoundlyInstalled, BasisOf;
  }

  lemma StepsMoveForward(s: Setup, w: World, e: Event)
    requires Step(s, w, e).Some?
    ensures Forward(w, Step(s, w, e).value)
  {
    hide RefreshStep, WorkStep, OtherStep, SharedOk, ThreadOk, Placed, Undisturbed, Forward, Draining;
    if RefreshStep(s, w, e).Some? {
      StepsMoveForwardRefresh(s, w, e);
    } else if WorkStep(s, w, e).Some? {
      StepsMoveForwardWork(s, w, e);
    } else {
      StepsMoveForwardOther(s, w, e);
    }
  }

  /** Once stopped, nobody joins a wait group. */
  ghost predicate Draining(w: World, w': World) {
    w.shared.closed ==>
      w'.refreshers <= w.refreshers && w'.loaders <= w.loaders && w'.booters <= w.booters && w'.runners <= w.runners
  }

  lemma StepsDrain(s: Setup, w: World, e: Event)
    requires Step(s, w, e).Some?
    ensures Draining(w, Step(s, w, e).value)
  {
    hide Usable, Visits, SoundlyInstalled, BasisOf, AfterStamp, AfterInstall;
  }

  // ---- Invariant: shared fields ----

  predicate FreshAt(s: Setup, x: Installed, now: int) { Age(now, x.sourceTime) <= s.config.freshFor }

  ghost predicate InstalledOk(s: Setup, x: Option<Installed>) {
    x.Some? ==> x.value.sourceTime <= x.value.activatedAt + s.config.maxFutureSkew && SoundlyInstalled(s.env, x.value)
  }

  ghost predicate SharedOk(s: Setup, w: World) {
    && (w.shared.closed <==> w.shared.state == StoppedState)
    && (w.shared.state == ColdState ==> w.shared.active == None)
    && (w.shared.state == ReadyState || w.shared.state == DegradedState ==> w.shared.active.Some?)
    && InstalledOk(s, w.shared.active)
    && (w.shared.state == DegradedState ==> !FreshAt(s, w.shared.active.value, w.shared.lastObservedAt))
    && 0 <= w.shared.lastObservedAt
    && (w.shared.refresh.Some? ==> w.shared.refresh.value < w.shared.nextFlight && w.shared.refresh.value !in w.results)
    && (w.shared.refresh.Some? <==> w.leader.Some?)
    && (forall f :: f in w.results ==> f < w.shared.nextFlight)
  }

  // ---- Invariant: calls ----

  /** What was stamped was stamped in the past, and what was accepted stays acceptable. */
  ghost predicate WorkOk(s: Setup, k: Work, now: int) {
    && (k.Stamped? ==> k.installed.activatedAt <= now && InstalledOk(s, Some(k.installed)))
    && (k.Ended? ==> InstalledOk(s, k.active))
  }

  /** Membership in the follower set and the three call-held wait groups is decided by where the call stands. */
  ghost predicate Placed(w: World, c: nat)
    requires c in w.threads
  {
    var t := w.threads[c];
    && (c in w.followers <==> t.Waiting?)
    && (c in w.refreshers <==> t.Leading? || t.Closing?)
    && (c in w.booters <==> t.Booting?)
    && (c in w.loaders <==> (t.Leading? || t.Booting?) && t.work.InLoad?)
  }

  ghost predicate ThreadOk(s: Setup, w: World, c: nat)
    requires c in w.threads
  {
    match w.threads[c]
    case Asking(now) => 0 <= now <= w.shared.lastObservedAt
    case Waiting(f) => f < w.shared.nextFlight && (f in w.results || w.shared.refresh == Some(f))
    case Leading(f, previous, work) =>
      w.leader == Some(c) && w.shared.refresh == Some(f) && InstalledOk(s, previous) && WorkOk(s, work, w.shared.lastObservedAt)
    case Closing(f) => f in w.results
    case Booting(work) => WorkOk(s, work, w.shared.lastObservedAt)
    case Reading(x) => InstalledOk(s, x)
    case Noting(now) => 0 <= now <= w.shared.lastObservedAt
    case Over => true
    case Followed(f, r) => f in w.results && w.results[f] == r
    case Led(f, r) => f in w.results && w.results[f] == r
  }

  ghost predicate CallsOk(s: Setup, w: World) {
    && (forall c :: c in w.threads ==> Placed(w, c))
    && (forall c :: c in w.threads ==> ThreadOk(s, w, c))
    && Known(w)
  }

  ghost predicate Known(w: World) {
    w.followers <= w.threads.Keys && w.refreshers <= w.threads.Keys && w.booters <= w.threads.Keys && w.loaders <= w.threads.Keys
  }

  ghost predicate WaitersOk(s: Setup, w: World) { w.shared.waiters == |w.followers| <= s.config.maxWaiters }

  /** Everything a call that does not move can see is unchanged, or only grew. */
  ghost predicate Undisturbed(w: World, w': World, x: nat)
    requires x in w.threads
  {
    && x in w'.threads && w'.threads[x] == w.threads[x]
    && (x in w'.followers <==> x in w.followers) && (x in w'.refreshers <==> x in w.refreshers)
    && (x in w'.booters <==> x in w.booters) && (x in w'.loaders <==> x in w.loaders)
    && w.shared.lastObservedAt <= w'.shared.lastObservedAt && w.shared.nextFlight <= w'.shared.nextFlight
    && (forall f :: f in w.results ==> f in w'.results && w'.results[f] == w.results[f])
    && ((w'.shared.refresh == w.shared.refresh && w'.leader == w.leader)
        || (!w.threads[x].Leading? && (w.shared.refresh.Some? ==> w.shared.refresh.value in w'.results)))
  }

  lemma UndisturbedStays(s: Setup, w: World, w': World, x: nat)
    requires x in w.threads && Undisturbed(w, w', x) && Placed(w, x) && ThreadOk(s, w, x)
    ensures Placed(w', x) && ThreadOk(s, w', x)
  {
  }

  function CallerOf(e: Event): (c: Option<nat>) {
    match e
    case Stop => None
    case Wait => None
    case StartRun(_, _) => None
    case EndRun(_) => None
    case EndWatch(_) => None
    case _ => Some(e.caller)
  }

  lemma UsableIsTimely(s: Setup, x: Candidate, now: int, allowStale: bool, order: seq<string>)
    requires Usable(s.env, s.config, x, now, allowStale, order)
    ensures EarlyProblem(s.config, x, now, allowStale) == None && x.sourceTime <= now + s.config.maxFutureSkew
    ensures SoundlyInstalled(s.env, InstalledFrom(s.config, x, now))
  {
    hide SoundlyInstalled;
    UsableIsSound(s.env, s.config, x, now, allowStale, order);
  }

  lemma SharedKeptRefresh(s: Setup, w: World, e: Event)
    requires SharedOk(s, w) && RefreshStep(s, w, e).Some?
    requires CallerOf(e).Some? && CallerOf(e).value in w.threads ==> ThreadOk(s, w, CallerOf(e).value)
    ensures SharedOk(s, RefreshStep(s, w, e).value)
  {
    hide Usable, Visits, SoundlyInstalled, BasisOf;
  }

  lemma SharedKeptWork(s: Setup, w: World, e: Event)
    requires SharedOk(s, w) && WorkStep(s, w, e).Some?
    requires CallerOf(e).Some? && CallerOf(e).value in w.threads ==> ThreadOk(s, w, CallerOf(e).value)
    ensures SharedOk(s, WorkStep(s, w, e).value)
  {
    hide Usable, Visits, SoundlyInstalled, BasisOf, AfterStamp;
  }

  lemma SharedKeptOther(s: Setup, w: World, e: Event)
    requires SharedOk(s, w) && OtherStep(s, w, e).Some?
    requires CallerOf(e).Some? && CallerOf(e).value in w.threads ==> ThreadOk(s, w, CallerOf(e).value)
    ensures SharedOk(s, OtherStep(s, w, e).value)
  {
    hide Usable, Visits, SoundlyInstalled, BasisOf;
  }

  lemma SharedKept(s: Setup, w: World, e: Event)
    requires SharedOk(s, w) && Step(s, w, e).Some?
    requires CallerOf(e).Some? && CallerOf(e).value in w.threads ==> ThreadOk(s, w, CallerOf(e).value)
    ensures SharedOk(s, Step(s, w, e).value)
  {
    hide RefreshStep, WorkStep, OtherStep, SharedOk, ThreadOk, Placed, Undisturbed, Forward, Draining;
    if RefreshStep(s, w, e).Some? {
      SharedKeptRefresh(s, w, e);
    } else if WorkStep(s, w, e).Some? {
      SharedKeptWork(s, w, e);
    } else {
      SharedKeptOther(s, w, e);
    }
  }

  lemma FinishUndisturbed(s: Setup, w: World, c: nat, reading: int, x: nat)
    requires SharedOk(s, w) && c in w.threads && w.threads[c].Leading? && w.threads[c].work.Ended? && ThreadOk(s, w, c)
    requires x in w.threads && x != c && ThreadOk(s, w, x)
    ensures Undisturbed(w, AfterFinish(s, w, c, reading), x)
  {
    hide InstalledOk, FreshAt, WorkOk;
  }

  lemma EnterUndisturbed(s: Setup, w: World, c: nat, now: int, x: nat)
    requires SharedOk(s, w) && x in w.threads && x != c && ThreadOk(s, w, x)
    ensures Undisturbed(w, AfterAdmission(s, w, c, now), x)
  {
    hide InstalledOk, FreshAt, WorkOk;
  }

  lemma OthersUndisturbedRefresh(s: Setup, w: World, e: Event, x: nat)
    requires SharedOk(s, w) && RefreshStep(s, w, e).Some? && x in w.threads && CallerOf(e) != Some(x) && ThreadOk(s, w, x)
    requires CallerOf(e).Some? && CallerOf(e).value in w.threads ==> ThreadOk(s, w, CallerOf(e).value)
    ensures Undisturbed(w, RefreshStep(s, w, e).value, x)
  {
    hide AfterFinish, AfterAdmission, SharedOk, ThreadOk;
    match e
    case Finish(c, reading) => FinishUndisturbed(s, w, c, reading, x);
    case Enter(c) => EnterUndisturbed(s, w, c, w.threads[c].now, x);
    case _ =>
  }

  lemma OthersUndisturbedWork(s: Setup, w: World, e: Event, x: nat)
    requires SharedOk(s, w) && WorkStep(s, w, e).Some? && x in w.threads && CallerOf(e) != Some(x) && ThreadOk(s, w, x)
    requires CallerOf(e).Some? && CallerOf(e).value in w.threads ==> ThreadOk(s, w, CallerOf(e).value)
    ensures Undisturbed(w, WorkStep(s, w, e).value, x)
  {
    hide SharedOk, ThreadOk, Usable, BasisOf, AfterStamp, AfterInstall;
  }

  lemma OthersUndisturbedOther(s: Setup, w: World, e: Event, x: nat)
    requires SharedOk(s, w) && OtherStep(s, w, e).Some? && x in w.threads && CallerOf(e) != Some(x) && ThreadOk(s, w, x)
    requires CallerOf(e).Some? && CallerOf(e).value in w.threads ==> ThreadOk(s, w, CallerOf(e).value)
    ensures Undisturbed(w, OtherStep(s, w, e).value, x)
  {
    hide Usable, Visits, SoundlyInstalled, BasisOf, FreshAt;
  }

  /** Calls other than the one that moves. */
  lemma OthersUndisturbed(s: Setup, w: World, e: Event, x: nat)
    requires SharedOk(s, w) && Step(s, w, e).Some? && x in w.threads && CallerOf(e) != Some(x) && ThreadOk(s, w, x)
    requires CallerOf(e).Some? && CallerOf(e).value in w.threads ==> ThreadOk(s, w, CallerOf(e).value)
    ensures Undisturbed(w, Step(s, w, e).value, x)
  {
    hide RefreshStep, WorkStep, OtherStep, SharedOk, ThreadOk, Placed, Undisturbed, Forward, Draining;
    if RefreshStep(s, w, e).Some? {
      OthersUndisturbedRefresh(s, w, e, x);
    } else if WorkStep(s, w, e).Some? {
      OthersUndisturbedWork(s, w, e, x);
    } else {
      OthersUndisturbedOther(s, w, e, x);
    }
  }

  lemma MoverPlacedRefresh(s: Setup, w: World, e: Event)
    requires RefreshStep(s, w, e).Some? && CallerOf(e).Some?
    requires var c := CallerOf(e).value;
             if c in w.threads then Placed(w, c) else c !in w.followers + w.refreshers + w.booters + w.loaders
    ensures CallerOf(e).value in RefreshStep(s, w, e).value.threads && Placed(RefreshStep(s, w, e).value, CallerOf(e).value)
  {
    hide Usable, Visits, SoundlyInstalled, BasisOf, FreshAt, DegradedIfStale;
  }

  lemma MoverPlacedWork(s: Setup, w: World, e: Event)
    requires WorkStep(s, w, e).Some? && CallerOf(e).Some?
    requires var c := CallerOf(e).value;
             if c in w.threads then Placed(w, c) else c !in w.followers + w.refreshers + w.booters + w.loaders
    ensures CallerOf(e).value in WorkStep(s, w, e).value.threads && Placed(WorkStep(s, w, e).value, CallerOf(e).value)
  {
    hide Usable, Visits, SoundlyInstalled, BasisOf, AfterStamp, AfterInstall;
  }

  lemma MoverPlacedOther(s: Setup, w: World, e: Event)
    requires OtherStep(s, w, e).Some? && CallerOf(e).Some?
    requires var c := CallerOf(e).value;
             if c in w.threads then Placed(w, c) else c !in w.followers + w.refreshers + w.booters + w.loaders
    ensures CallerOf(e).value in OtherStep(s, w, e).value.threads && Placed(OtherStep(s, w, e).value, CallerOf(e).value)
  {
    hide Usable, Visits, SoundlyInstalled, BasisOf;
  }

  lemma MoverPlaced(s: Setup, w: World, e: Event)
    requires Step(s, w, e).Some? && CallerOf(e).Some?
    requires var c := CallerOf(e).value;
             if c in w.threads then Placed(w, c) else c !in w.followers + w.refreshers + w.booters + w.loaders
    ensures CallerOf(e).value in Step(s, w, e).value.threads && Placed(Step(s, w, e).value, CallerOf(e).value)
  {
    hide RefreshStep, WorkStep, OtherStep, SharedOk, ThreadOk, Placed, Undisturbed, Forward, Draining;
    if RefreshStep(s, w, e).Some? {
      MoverPlacedRefresh(s, w, e);
    } else if WorkStep(s, w, e).Some? {
      MoverPlacedWork(s, w, e);
    } else {
      MoverPlacedOther(s, w, e);
    }
  }

  lemma MoverOkRefresh(s: Setup, w: World, e: Event)
    requires SharedOk(s, w) && RefreshStep(s, w, e).Some? && CallerOf(e).Some?
    requires CallerOf(e).value in w.threads ==> ThreadOk(s, w, CallerOf(e).value)
    ensures CallerOf(e).value in RefreshStep(s, w, e).value.threads && ThreadOk(s, RefreshStep(s, w, e).value, CallerOf(e).value)
  {
    hide Usable, Visits, SoundlyInstalled, BasisOf, FreshAt, DegradedIfStale;
  }

  lemma MoverOkWork(s: Setup, w: World, e: Event)
    requires SharedOk(s, w) && WorkStep(s, w, e).Some? && CallerOf(e).Some?
    requires CallerOf(e).value in w.threads ==> ThreadOk(s, w, CallerOf(e).value)
    ensures CallerOf(e).value in WorkStep(s, w, e).value.threads && ThreadOk(s, WorkStep(s, w, e).value, CallerOf(e).value)
  {
    hide Usable, Visits, SoundlyInstalled, BasisOf, FreshAt;
    match e
    case Stamp(c, reading, order) =>
      var x, now := WorkOf(w, c).candidate, FleetTime(w.shared, reading);
      if Usable(s.env, s.config, x, now, AllowStale(s, w, c), order) {
        UsableIsTimely(s, x, now, AllowStale(s, w, c), order);
      }
    case _ =>
  }

  lemma MoverOkOther(s: Setup, w: World, e: Event)
    requires SharedOk(s, w) && OtherStep(s, w, e).Some? && CallerOf(e).Some?
    requires CallerOf(e).value in w.threads ==> ThreadOk(s, w, CallerOf(e).value)
    ensures CallerOf(e).value in OtherStep(s, w, e).value.threads && ThreadOk(s, OtherStep(s, w, e).value, CallerOf(e).value)
  {
    hide Usable, Visits, SoundlyInstalled, BasisOf;
  }

  lemma MoverOk(s: Setup, w: World, e: Event)
    requires SharedOk(s, w) && Step(s, w, e).Some? && CallerOf(e).Some?
    requires CallerOf(e).value in w.threads ==> ThreadOk(s, w, CallerOf(e).value)
    ensures CallerOf(e).value in Step(s, w, e).value.threads && ThreadOk(s, Step(s, w, e).value, CallerOf(e).value)
  {
    hide RefreshStep, WorkStep, OtherStep, SharedOk, ThreadOk, Placed, Undisturbed, Forward, Draining;
    if RefreshStep(s, w, e).Some? {
      MoverOkRefresh(s, w, e);
    } else if WorkStep(s, w, e).Some? {
      MoverOkWork(s, w, e);
    } else {
      MoverOkOther(s, w, e);
    }
  }

  // ---- Invariant: counts, admissions, servings, shutdown ----

  ghost predicate AdmissionsOk(s: Setup, w: World) {
    && w.shared.lastRefreshAt == (if w.admissions == [] then 0 else w.admissions[|w.admissions| - 1])
    && (forall i :: 0 <= i < |w.admissions| ==> w.admissions[i] >= 0)
    && Spaced(s, w.admissions)
  }

  ghost predicate Spaced(s: Setup, a: seq<int>) {
    forall i, j :: 0 <= i && j == i + 1 && j < |a| && a[i] != 0 ==> a[j] >= a[i] + s.config.minRefreshInterval
  }

  ghost predicate ServingOk(s: Setup, v: Serving) {
    (Limited(s.config) ==> v.at <= v.installed.sourceTime + s.config.maxStaleness) && InstalledOk(s, Some(v.installed))
  }

  ghost predicate ServingsOk(s: Setup, w: World) { forall i :: 0 <= i < |w.servings| ==> ServingOk(s, w.servings[i]) }

  ghost predicate WaitedOk(w: World) {
    && w.waited <= 5 && (w.waited >= 1 ==> w.shared.closed) && (w.waited >= 2 ==> w.runners == {})
    && (w.watcher.Some? ==> w.watcher.value in w.runners)
    && (w.waited >= 3 ==> w.refreshers == {}) && (w.waited >= 4 ==> w.loaders == {}) && (w.waited >= 5 ==> w.booters == {})
  }

  ghost predicate FleetInv(s: Setup, w: World) {
    SharedOk(s, w) && CallsOk(s, w) && WaitersOk(s, w) && AdmissionsOk(s, w) && ServingsOk(s, w) && WaitedOk(w)
  }

  lemma SetsKeptRefresh(s: Setup, w: World, e: Event)
    requires RefreshStep(s, w, e).Some? && Known(w)
    ensures Known(RefreshStep(s, w, e).value)
  {
    hide Usable, Visits, SoundlyInstalled, BasisOf;
  }

  lemma SetsKeptWork(s: Setup, w: World, e: Event)
    requires WorkStep(s, w, e).Some? && Known(w)
    ensures Known(WorkStep(s, w, e).value)
  {
    hide Usable, Visits, SoundlyInstalled, BasisOf, AfterStamp, AfterInstall;
  }

  lemma SetsKeptOther(s: Setup, w: World, e: Event)
    requires OtherStep(s, w, e).Some? && Known(w)
    ensures Known(OtherStep(s, w, e).value)
  {
    hide Usable, Visits, SoundlyInstalled, BasisOf;
  }

  lemma SetsKept(s: Setup, w: World, e: Event)
    requires Step(s, w, e).Some? && Known(w)
    ensures Known(Step(s, w, e).value)
  {
    hide RefreshStep, WorkStep, OtherStep, Known;
    if RefreshStep(s, w, e).Some? {
      SetsKeptRefresh(s, w, e);
    } else if WorkStep(s, w, e).Some? {
      SetsKeptWork(s, w, e);
    } else {
      SetsKeptOther(s, w, e);
    }
  }

  lemma CallsKept(s: Setup, w: World, e: Event)
    requires SharedOk(s, w) && CallsOk(s, w) && Step(s, w, e).Some?
    ensures CallsOk(s, Step(s, w, e).value)
  {
    hide SharedOk, Step, Placed, ThreadOk, Undisturbed;
    SetsKept(s, w, e);
    NoStrangers(s, w, e);
    var n := Step(s, w, e).value;
    forall x | x in n.threads ensures Placed(n, x) && ThreadOk(s, n, x) {
      if CallerOf(e) == Some(x) {
        MoverPlaced(s, w, e);
        MoverOk(s, w, e);
      } else {
        OthersUndisturbed(s, w, e, x);
        UndisturbedStays(s, w, n, x);
      }
    }
  }

  lemma NoStrangers(s: Setup, w: World, e: Event)
    requires Step(s, w, e).Some?
    ensures forall x :: x in Step(s, w, e).value.threads ==> x in w.threads || CallerOf(e) == Some(x)
  {
    hide Usable, Visits, SoundlyInstalled, BasisOf, AfterStamp, AfterInstall;
  }

  lemma WaitersKeptRefresh(s: Setup, w: World, e: Event)
    requires WaitersOk(s, w) && RefreshStep(s, w, e).Some?
    requires CallerOf(e).Some? && CallerOf(e).value in w.threads ==> Placed(w, CallerOf(e).value)
    ensures WaitersOk(s, RefreshStep(s, w, e).value)
  {
    hide Usable, Visits, SoundlyInstalled, BasisOf, FreshAt, DegradedIfStale, FleetTime;
  }

  lemma WaitersSame(s: Setup, w: World, e: Event)
    requires !RefreshStep(s, w, e).Some? && Step(s, w, e).Some?
    ensures Step(s, w, e).value.followers == w.followers && Step(s, w, e).value.shared.waiters == w.shared.waiters
  {
    hide Usable, Visits, SoundlyInstalled, BasisOf, AfterStamp, AfterInstall, RefreshStep;
  }

  lemma WaitersKept(s: Setup, w: World, e: Event)
    requires WaitersOk(s, w) && Step(s, w, e).Some?
    requires CallerOf(e).Some? && CallerOf(e).value in w.threads ==> Placed(w, CallerOf(e).value)
    ensures WaitersOk(s, Step(s, w, e).value)
  {
    hide RefreshStep, WorkStep, OtherStep, Placed;
    if RefreshStep(s, w, e).Some? { WaitersKeptRefresh(s, w, e); } else { WaitersSame(s, w, e); }
  }

  lemma AdmissionsKeptRefresh(s: Setup, w: World, e: Event)
    requires Sane(s.config) && AdmissionsOk(s, w) && RefreshStep(s, w, e).Some?
    requires CallerOf(e).Some? && CallerOf(e).value in w.threads ==> ThreadOk(s, w, CallerOf(e).value)
    ensures AdmissionsOk(s, RefreshStep(s, w, e).value)
  {
    hide Usable, Visits, SoundlyInstalled, BasisOf, Spaced;
    var n := RefreshStep(s, w, e).value;
    if e.Enter? && n.admissions != w.admissions { SpacedGrows(s, w.admissions, w.threads[e.caller].now); }
  }

  /** Only refreshes are admitted, and only they publish results. */
  lemma AdmissionsSame(s: Setup, w: World, e: Event)
    requires !RefreshStep(s, w, e).Some? && Step(s, w, e).Some?
    ensures var n := Step(s, w, e).value;
            n.admissions == w.admissions && n.shared.lastRefreshAt == w.shared.lastRefreshAt && n.results == w.results
  {
    hide Usable, Visits, SoundlyInstalled, BasisOf, AfterStamp, AfterInstall, RefreshStep;
  }

  lemma AdmissionsKept(s: Setup, w: World, e: Event)
    requires Sane(s.config) && AdmissionsOk(s, w) && Step(s, w, e).Some?
    requires CallerOf(e).Some? && CallerOf(e).value in w.threads ==> ThreadOk(s, w, CallerOf(e).value)
    ensures AdmissionsOk(s, Step(s, w, e).value)
  {
    hide RefreshStep, WorkStep, OtherStep, ThreadOk, Spaced, Sane;
    if RefreshStep(s, w, e).Some? { AdmissionsKeptRefresh(s, w, e); } else { AdmissionsSame(s, w, e); }
  }

  lemma SpacedGrows(s: Setup, a: seq<int>, now: int)
    requires Spaced(s, a) && (a != [] && a[|a| - 1] != 0 ==> now >= a[|a| - 1] + s.config.minRefreshInterval)
    ensures Spaced(s, a + [now])
  {
  }

  lemma ServingsKeptOther(s: Setup, w: World, e: Event)
    requires Sane(s.config) && ServingsOk(s, w) && OtherStep(s, w, e).Some?
    requires CallerOf(e).Some? && CallerOf(e).value in w.threads ==> ThreadOk(s, w, CallerOf(e).value)
    ensures ServingsOk(s, OtherStep(s, w, e).value)
  {
    hide Usable, Visits, SoundlyInstalled, BasisOf, Sane;
    if e.Serve? {
      var first := FleetTime(w.shared, e.reading);
      BasisIsBounded(s.env, s.config, w.threads[e.caller].active, e.key, e.expected, first,
                     Tick(Tick(w, e.reading), e.later).shared.lastObservedAt);
    }
  }

  lemma ServingsSame(s: Setup, w: World, e: Event)
    requires RefreshStep(s, w, e).Some? || WorkStep(s, w, e).Some?
    ensures Step(s, w, e).value.servings == w.servings
  {
    hide Usable, Visits, SoundlyInstalled, BasisOf, AfterStamp, AfterInstall, OtherStep;
  }

  lemma ServingsKept(s: Setup, w: World, e: Event)
    requires Sane(s.config) && ServingsOk(s, w) && Step(s, w, e).Some?
    requires CallerOf(e).Some? && CallerOf(e).value in w.threads ==> ThreadOk(s, w, CallerOf(e).value)
    ensures ServingsOk(s, Step(s, w, e).value)
  {
    hide RefreshStep, WorkStep, OtherStep, ThreadOk, Sane, ServingOk;
    if RefreshStep(s, w, e).Some? || WorkStep(s, w, e).Some? { ServingsSame(s, w, e); } else { ServingsKeptOther(s, w, e); }
  }

  lemma WaitedKeptOther(s: Setup, w: World, e: Event)
    requires WaitedOk(w) && OtherStep(s, w, e).Some?
    ensures WaitedOk(OtherStep(s, w, e).value)
  {
    hide Usable, Visits, SoundlyInstalled, BasisOf;
  }

  lemma WaitedKeptCalls(s: Setup, w: World, e: Event)
    requires WaitedOk(w) && (RefreshStep(s, w, e).Some? || WorkStep(s, w, e).Some?)
    ensures WaitedOk(Step(s, w, e).value)
  {
    hide Usable, Visits, SoundlyInstalled, BasisOf, AfterStamp, AfterInstall, OtherStep;
  }

  lemma WaitedKept(s: Setup, w: World, e: Event)
    requires WaitedOk(w) && Step(s, w, e).Some?
    ensures WaitedOk(Step(s, w, e).value)
  {
    hide RefreshStep, WorkStep, OtherStep, WaitedOk;
    if RefreshStep(s, w, e).Some? || WorkStep(s, w, e).Some? { WaitedKeptCalls(s, w, e); } else { WaitedKeptOther(s, w, e); }
  }

  lemma StepKeepsFleet(s: Setup, w: World, e: Event)
    requires Sane(s.config) && FleetInv(s, w) && Step(s, w, e).Some?
    ensures FleetInv(s, Step(s, w, e).value)
  {
    hide SharedOk, WaitersOk, AdmissionsOk, ServingsOk, WaitedOk, Step, Sane, ThreadOk, Placed;
    SharedKept(s, w, e);
    WaitersKept(s, w, e);
    AdmissionsKept(s, w, e);
    ServingsKept(s, w, e);
    WaitedKept(s, w, e);
    CallsKept(s, w, e);
  }

  lemma InitialIsFleet(s: Setup)
    requires Sane(s.config)
    ensures FleetInv(s, INITIAL)
  {
  }

  // ---- Whole runs ----

  ghost predicate IsRun(s: Setup, ws: seq<World>, es: seq<Event>) {
    && |ws| == |es| + 1 && ws[0] == INITIAL
    && forall i :: 0 <= i < |es| ==> StepAt(s, ws, es, i)
  }

  ghost predicate StepAt(s: Setup, ws: seq<World>, es: seq<Event>, i: nat)
    requires |ws| == |es| + 1 && i < |es|
  {
    Step(s, ws[i], es[i]) == Some(ws[i + 1])
  }

  lemma {:induction false} RunKeepsFleet(s: Setup, ws: seq<World>, es: seq<Event>, i: nat)
    requires Sane(s.config) && IsRun(s, ws, es) && i < |ws|
    ensures FleetInv(s, ws[i])
  {
    hide FleetInv, Step, Sane;
    if i == 0 {
      InitialIsFleet(s);
    } else {
      RunKeepsFleet(s, ws, es, i - 1);
      assert StepAt(s, ws, es, i - 1);
      StepKeepsFleet(s, ws[i - 1], es[i - 1]);
    }
  }

  ghost predicate ForwardAll(w: World, w': World) { Forward(w, w') && Draining(w, w') }

  lemma ForwardCompose(a: World, b: World, c: World)
    requires ForwardAll(a, b) && ForwardAll(b, c)
    ensures ForwardAll(a, c)
  {
  }

  lemma {:induction false} RunMovesForward(s: Setup, ws: seq<World>, es: seq<Event>, i: nat, j: nat)
    requires IsRun(s, ws, es) && i <= j < |ws|
    ensures ForwardAll(ws[i], ws[j])
    decreases j
  {
    if i == j { return; }
    hide Step, ForwardAll;
    RunMovesForward(s, ws, es, i, j - 1);
    assert StepAt(s, ws, es, j - 1);
    OneStepForward(s, ws[j - 1], es[j - 1]);
    ForwardCompose(ws[i], ws[j - 1], ws[j]);
  }

  lemma OneStepForward(s: Setup, w: World, e: Event)
    requires Step(s, w, e).Some?
    ensures ForwardAll(w, Step(s, w, e).value)
  {
    hide Step, Forward, Draining;
    StepsMoveForward(s, w, e);
    StepsDrain(s, w, e);
  }

  // ---- Staleness ----

  /**
   * Whatever the clock does, a value taken from a snapshot at fleet time t satisfies t <= source time + maximum
   * staleness, and hence t <= activation time + allowed skew + maximum staleness, unless ages saturate first; and
   * that snapshot was accepted.
   */
  lemma ServedValuesAreBounded(s: Setup, ws: seq<World>, es: seq<Event>, i: nat, k: nat)
    requires Sane(s.config) && IsRun(s, ws, es) && i < |ws| && k < |ws[i].servings|
    ensures var v := ws[i].servings[k];
            && v.installed.sourceTime <= v.installed.activatedAt + s.config.maxFutureSkew
            && (Limited(s.config) ==>
                  && v.at <= v.installed.sourceTime + s.config.maxStaleness
                  && v.at <= v.installed.activatedAt + s.config.maxFutureSkew + s.config.maxStaleness)
            && SoundlyInstalled(s.env, v.installed)
  {
    hide Step, Sane, SharedOk, CallsOk, AdmissionsOk, SoundlyInstalled;
    RunKeepsFleet(s, ws, es, i);
    assert ServingOk(s, ws[i].servings[k]);
  }

  /** Once stale, only an activation with a strictly later source time makes the fleet fresh again. */
  lemma FreshnessNeedsALaterSource(s: Setup, ws: seq<World>, es: seq<Event>, i: nat, j: nat)
    requires Sane(s.config) && IsRun(s, ws, es) && i <= j < |ws| && ws[i].shared.active.Some?
    requires !FreshAt(s, ws[i].shared.active.value, ws[i].shared.lastObservedAt)
    ensures ws[j].shared.active.Some?
    ensures FreshAt(s, ws[j].shared.active.value, ws[j].shared.lastObservedAt) ==>
              ws[j].shared.active.value.sourceTime > ws[i].shared.active.value.sourceTime
  {
    hide Step;
    RunMovesForward(s, ws, es, i, j);
  }

  /** A status report is exact: stopped when closed, otherwise cold, ready or degraded by what is active and its age. */
  lemma StatusIsTruthful(s: Setup, ws: seq<World>, es: seq<Event>, i: nat, reading: int)
    requires Sane(s.config) && IsRun(s, ws, es) && i < |ws|
    ensures var sh, now := ws[i].shared, FleetTime(ws[i].shared, reading);
            ReportedState(s.config, sh, now)
            == if sh.closed then StoppedState
               else if sh.active == None then ColdState
               else if FreshAt(s, sh.active.value, now) then ReadyState
               else DegradedState
  {
    hide Step, Sane, CallsOk, AdmissionsOk;
    RunKeepsFleet(s, ws, es, i);
  }

  // ---- Single flight ----

  /**
   * At most one call leads at a time, the waiter count is the number of attached followers and within its limit,
   * and a follower that was not cancelled answers with its own flight's published result, as its leader does.
   */
  lemma RefreshesAreSingleFlight(s: Setup, ws: seq<World>, es: seq<Event>, i: nat, a: nat, b: nat)
    requires Sane(s.config) && IsRun(s, ws, es) && i < |ws| && a in ws[i].threads && b in ws[i].threads
    ensures ws[i].threads[a].Leading? && ws[i].threads[b].Leading? ==> a == b
    ensures a in ws[i].followers <==> ws[i].threads[a].Waiting?
    ensures ws[i].followers <= ws[i].threads.Keys && ws[i].shared.waiters == |ws[i].followers| <= s.config.maxWaiters
    ensures ws[i].threads[a].Followed? || ws[i].threads[a].Led? ==>
              ws[i].threads[a].flight in ws[i].results && ws[i].threads[a].result == ws[i].results[ws[i].threads[a].flight]
  {
    hide Step, Sane, SharedOk, AdmissionsOk;
    RunKeepsFleet(s, ws, es, i);
    assert ThreadOk(s, ws[i], a) && ThreadOk(s, ws[i], b) && Placed(ws[i], a);
  }

  lemma ResultsStayRefresh(s: Setup, w: World, e: Event, f: nat)
    requires SharedOk(s, w) && RefreshStep(s, w, e).Some? && f in w.results
    requires CallerOf(e).Some? && CallerOf(e).value in w.threads ==> ThreadOk(s, w, CallerOf(e).value)
    ensures var n := RefreshStep(s, w, e).value; f in n.results && n.results[f] == w.results[f]
  {
    hide Usable, Visits, SoundlyInstalled, BasisOf;
  }

  lemma ResultsStay(s: Setup, w: World, e: Event, f: nat)
    requires FleetInv(s, w) && Step(s, w, e).Some? && f in w.results
    ensures var n := Step(s, w, e).value; f in n.results && n.results[f] == w.results[f]
  {
    hide RefreshStep, WorkStep, OtherStep, SharedOk, ThreadOk, Placed, AdmissionsOk, ServingsOk, WaitedOk, WaitersOk;
    if CallerOf(e).Some? && CallerOf(e).value in w.threads { assert ThreadOk(s, w, CallerOf(e).value); }
    if RefreshStep(s, w, e).Some? { ResultsStayRefresh(s, w, e, f); } else { AdmissionsSame(s, w, e); }
  }

  /** A flight's result is published once and never changes. */
  lemma {:induction false} PublishedResultsStay(s: Setup, ws: seq<World>, es: seq<Event>, i: nat, j: nat, f: nat)
    requires Sane(s.config) && IsRun(s, ws, es) && i <= j < |ws| && f in ws[i].results
    ensures f in ws[j].results && ws[j].results[f] == ws[i].results[f]
    decreases j
  {
    hide Step, Sane, FleetInv;
    if i < j {
      PublishedResultsStay(s, ws, es, i, j - 1, f);
      RunKeepsFleet(s, ws, es, j - 1);
      assert StepAt(s, ws, es, j - 1);
      ResultsStay(s, ws[j - 1], es[j - 1], f);
    }
  }

  // ---- Rate ----

  lemma {:induction false} SpacedSpan(s: Setup, a: seq<int>, k: nat, n: nat)
    requires Spaced(s, a) && s.config.minRefreshInterval > 0 && k + n < |a| && a[k] > 0
    ensures a[k + n] >= a[k] + n * s.config.minRefreshInterval
    decreases n
  {
    if n > 0 {
      SpacedSpan(s, a, k, n - 1);
      assert (n - 1) * s.config.minRefreshInterval + s.config.minRefreshInterval == n * s.config.minRefreshInterval;
      assert (n - 1) * s.config.minRefreshInterval >= 0;
      assert a[k + n - 1] > 0;
    }
  }

  /**
   * From any admission on, n further ones take at least n minimum intervals of fleet time, unless that admission was
   * made at the zero instant; and admissions at the zero instant can only be the first ones of a run.
   */
  lemma AdmissionsAreRateBounded(s: Setup, ws: seq<World>, es: seq<Event>, i: nat, k: nat, n: nat)
    requires Sane(s.config) && IsRun(s, ws, es) && i < |ws| && k + n < |ws[i].admissions|
    ensures ws[i].admissions[k] != 0 ==> ws[i].admissions[k + n] >= ws[i].admissions[k] + n * s.config.minRefreshInterval
    ensures ws[i].admissions[k + n] == 0 ==> ws[i].admissions[k] == 0
  {
    hide Step, SharedOk, CallsOk, Spaced;
    RunKeepsFleet(s, ws, es, i);
    if ws[i].admissions[k] != 0 {
      SpacedSpan(s, ws[i].admissions, k, n);
      assert n * s.config.minRefreshInterval >= 0;
    }
  }

  // ---- Stopping ----

  /**
   * Stopping is terminal: the fleet is closed exactly when it reports stopped; once shutdown has waited for the last
   * group, all four groups are empty, stay empty in every later state, no watcher runs, and the active snapshot is
   * frozen.
   */
  lemma ShutdownIsFinal(s: Setup, ws: seq<World>, es: seq<Event>, i: nat, j: nat)
    requires Sane(s.config) && IsRun(s, ws, es) && i <= j < |ws|
    ensures ws[i].shared.closed <==> ws[i].shared.state == StoppedState
    ensures ws[i].shared.closed ==> ws[j].shared.closed && ws[j].shared.active == ws[i].shared.active
    ensures ws[i].waited == 5 ==>
              && ws[j].runners == {} && ws[j].watcher == None
              && ws[j].refreshers == {} && ws[j].loaders == {} && ws[j].booters == {}
  {
    hide Step, Sane, CallsOk, AdmissionsOk;
    RunKeepsFleet(s, ws, es, i);
    RunKeepsFleet(s, ws, es, j);
    RunMovesForward(s, ws, es, i, j);
  }

  /** Over every run the source time of the active snapshot never decreases. */
  lemma SourceTimeNeverDecreases(s: Setup, ws: seq<World>, es: seq<Event>, i: nat, j: nat)
    requires IsRun(s, ws, es) && i <= j < |ws| && ws[i].shared.active.Some?
    ensures ws[j].shared.active.Some? && ws[i].shared.active.value.sourceTime <= ws[j].shared.active.value.sourceTime
  {
    hide Step;
    RunMovesForward(s, ws, es, i, j);
  }

  /** At the zero instant the interval is not enforced: two admissions in a row, with no time between them. */
  lemma ZeroInstantEscapesTheRate(c: Config)
    requires Sane(c)
    ensures AdmissionOf(c, COLD, 0).Lead?
    ensures AdmissionOf(c, FlightOver(c, Admitted(c, COLD, 0), true, 0), 0).Lead?
  {
  }
}
