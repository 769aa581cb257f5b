/** Every interleaving of cache calls, local mutations and Close over a linearizable provider. */
module CacheRuns {
  import opened Model
  import opened SnapshotCache

  /** What one provider read saw: the tenant's commit count, tagged with the reader's admission ticket. */
  datatype Read = Read(version: nat, ticket: nat)

  /** Tickets number all admissions of the run, over every tenant and refresh state. */
  datatype Seat = Seat(state: nat, sequence: nat, ticket: nat)

  datatype Phase =
    | Asked
    | Reading(seat: Seat)
    | Holding(seat: Seat, read: Read)
    | Ending(seat: Seat, reply: Option<Read>)

  /** `floor` is how many local mutations had returned when the call started. */
  datatype Call = Call(tenant: string, floor: nat, now: int, captured: Option<Entry<Read>>, phase: Phase)

  /** Entries are served at one instant and were fetched at another. */
  datatype Source = Hit(at: int, fetched: int) | FromProvider | Fallback(at: int, fetched: int)

  datatype Answer = Answer(tenant: string, version: nat, floor: nat, source: Source)

  datatype Publication = Publication(tenant: string, ticket: nat)

  datatype Mutation = Mutation(tenant: string, version: nat)

  /**
   * One tenant's history: provider commits, mutations returned, the tickets at its last invalidation (`barrier`)
   * and last rotation (`fence`), and its newest published ticket.
   */
  datatype Book = Book(commits: nat, returned: nat, barrier: nat, fence: nat, newest: nat)

  /** `cleared` is the ticket at the last Close; `owners` names the tenant each refresh state was allocated for. */
  datatype System = System(
    cache: CacheState<Read>, calls: map<nat, Call>, ticket: nat, books: map<string, Book>,
    pending: map<nat, Mutation>, cleared: nat, owners: seq<string>,
    answers: seq<Answer>, publications: seq<Publication>)
  {
    function Of(t: string): (b: Book) { if t in books then books[t] else Book(0, 0, 0, 0, 0) }
  }

  const INITIAL: System := System(CacheState(map[], map[], []), map[], 1, map[], map[], 0, [], [], [])

  function Max(a: nat, b: nat): (m: nat) { if a < b then b else a }

  function Barrier(s: System, t: string): (n: nat) { Max(s.Of(t).barrier, s.cleared) }

  function Fence(s: System, t: string): (n: nat) { Max(s.Of(t).fence, Barrier(s, t)) }

  /** `Start` is a Snapshot call that reads the clock and the entry, or, without a time, a direct Refresh. */
  datatype Event =
    | Start(id: nat, tenant: string, now: Option<int>)
    | Admit(id: nat)
    | Fetch(id: nat)
    | FailFetch(id: nat)
    | Publish(id: nat, at: int)
    | Finish(id: nat)
    | Commit(mutation: nat, tenant: string)
    | Return(mutation: nat)
    | Close

  predicate Seated(c: Call) { !c.phase.Asked? }

  ghost predicate Enabled(s: System, e: Event) {
    match e
    case Start(id, _, _) => id !in s.calls
    case Admit(id) => id in s.calls && s.calls[id].phase.Asked?
                      && (s.calls[id].tenant in s.cache.refreshes
                          ==> s.cache.refreshes[s.calls[id].tenant] < |s.cache.states|)
    case Fetch(id) => id in s.calls && s.calls[id].phase.Reading?
    case FailFetch(id) => id in s.calls && s.calls[id].phase.Reading?
    case Publish(id, _) => id in s.calls && s.calls[id].phase.Holding?
                           && s.calls[id].phase.seat.state < |s.cache.states|
    case Finish(id) => id in s.calls && s.calls[id].phase.Ending?
                       && s.calls[id].phase.seat.state < |s.cache.states|
                       && s.cache.states[s.calls[id].phase.seat.state].running > 0
    case Commit(m, _) => m !in s.pending
    case Return(m) => m in s.pending
    case Close => true
  }

  function Opened(s: System, t: string, now: Option<int>): (c: Call) {
    var entry := if now.Some? && t in s.cache.entries then Some(s.cache.entries[t]) else None;
    Call(t, s.Of(t).returned, if now.Some? then now.value else 0, entry, Asked)
  }

  /** What a finished refresh hands its caller, if anything. */
  function Outcome(config: Config, c: Call): (a: Option<Answer>)
    requires c.phase.Ending?
  {
    if c.phase.reply.Some? then Some(Answer(c.tenant, c.phase.reply.value.version, c.floor, FromProvider))
    else if FallsBack(config, c.captured, c.now) then
      Some(Answer(c.tenant, c.captured.value.snapshot.version, c.floor, Fallback(c.now, c.captured.value.fetched)))
    else None
  }

  ghost function Apply(config: Config, s: System, e: Event): (r: System)
    requires Enabled(s, e)
  {
    match e
    case Start(id, t, now) =>
      var c := Opened(s, t, now);
      if Hits(config, c.captured, c.now) then
        s.(answers := s.answers + [Answer(t, c.captured.value.snapshot.version, c.floor, Hit(c.now, c.captured.value.fetched))])
      else s.(calls := s.calls[id := c])
    case Admit(id) =>
      var c := s.calls[id];
      var (cache, state, sequence) := Admitted(s.cache, c.tenant);
      s.(cache := cache, ticket := s.ticket + 1,
         calls := s.calls[id := c.(phase := Reading(Seat(state, sequence, s.ticket)))],
         owners := if Rotates(s.cache, c.tenant) then s.owners + [c.tenant] else s.owners,
         books := if c.tenant in s.cache.refreshes && Rotates(s.cache, c.tenant)
                  then s.books[c.tenant := s.Of(c.tenant).(fence := s.ticket)] else s.books)
    case Fetch(id) =>
      var c := s.calls[id];
      s.(calls := s.calls[id := c.(phase := Holding(c.phase.seat, Read(s.Of(c.tenant).commits, c.phase.seat.ticket)))])
    case FailFetch(id) =>
      var c := s.calls[id];
      s.(calls := s.calls[id := c.(phase := Ending(c.phase.seat, None))])
    case Publish(id, at) =>
      var c := s.calls[id];
      var seat := c.phase.seat;
      var s' := s.(cache := Published(s.cache, config.maxTenants, c.tenant, seat.state, seat.sequence, Entry(c.phase.read, at)),
                   calls := s.calls[id := c.(phase := Ending(seat, Some(c.phase.read)))]);
      if MayPublish(s.cache, c.tenant, seat.state, seat.sequence) then
        s'.(books := s.books[c.tenant := s.Of(c.tenant).(newest := seat.ticket)],
            publications := s.publications + [Publication(c.tenant, seat.ticket)])
      else s'
    case Finish(id) =>
      var c := s.calls[id];
      var answer := Outcome(config, c);
      s.(cache := Ended(s.cache, c.tenant, c.phase.seat.state), calls := s.calls - {id},
         answers := if answer.Some? then s.answers + [answer.value] else s.answers)
    case Commit(m, t) =>
      var version := s.Of(t).commits + 1;
      s.(books := s.books[t := s.Of(t).(commits := version)], pending := s.pending[m := Mutation(t, version)])
    case Return(m) =>
      var t := s.pending[m].tenant;
      s.(cache := Invalidated(s.cache, t), pending := s.pending - {m},
         books := s.books[t := s.Of(t).(returned := Max(s.Of(t).returned, s.pending[m].version), barrier := s.ticket)])
    case Close => s.(cache := Cleared(s.cache), cleared := s.ticket)
  }

  // ---- Invariants ----

  ghost function Sitting(calls: map<nat, Call>, state: nat): (ids: set<nat>) {
    set id | id in calls && Seated(calls[id]) && calls[id].phase.seat.state == state
  }

  ghost predicate CountersOk(s: System, i: nat) {
    i < |s.cache.states| ==>
      s.cache.states[i].running <= s.cache.states[i].next <= MAX_SEQUENCE
      && s.cache.states[i].published <= s.cache.states[i].next
  }

  ghost predicate Counted(s: System, i: nat) {
    i < |s.cache.states| ==> s.cache.states[i].running == |Sitting(s.calls, i)|
  }

  ghost predicate TenantOk(s: System, t: string) {
    && Fence(s, t) <= s.ticket && s.Of(t).newest < s.ticket
    && s.Of(t).returned <= s.Of(t).commits
    && (t in s.cache.refreshes ==>
          && s.cache.refreshes[t] < |s.cache.states| == |s.owners|
          && s.cache.states[s.cache.refreshes[t]].running > 0
          && s.owners[s.cache.refreshes[t]] == t)
    && (t in s.cache.entries ==>
          && s.Of(t).returned <= s.cache.entries[t].snapshot.version
          && Barrier(s, t) <= s.cache.entries[t].snapshot.ticket)
  }

  ghost predicate SeatOk(s: System, t: string, seat: Seat) {
    && seat.state < |s.cache.states| == |s.owners| && s.owners[seat.state] == t
    && 1 <= seat.sequence <= s.cache.states[seat.state].next
    && seat.ticket < s.ticket
    && (s.cache.Current(t, seat.state) <==> Fence(s, t) <= seat.ticket)
    && (s.cache.Current(t, seat.state) ==>
          (seat.sequence > s.cache.states[seat.state].published <==> s.Of(t).newest < seat.ticket))
  }

  ghost predicate ReadOk(s: System, c: Call, read: Read)
    requires Seated(c)
  {
    && read.ticket == c.phase.seat.ticket
    && c.floor <= read.version
    && (Barrier(s, c.tenant) <= read.ticket ==> s.Of(c.tenant).returned <= read.version)
  }

  ghost predicate ReadsOk(s: System, c: Call) {
    && c.floor <= s.Of(c.tenant).returned
    && (c.captured.Some? ==> c.floor <= c.captured.value.snapshot.version)
    && (c.phase.Holding? ==> ReadOk(s, c, c.phase.read))
    && (c.phase.Ending? && c.phase.reply.Some? ==> ReadOk(s, c, c.phase.reply.value))
  }

  ghost predicate CallOk(s: System, c: Call) {
    ReadsOk(s, c) && (Seated(c) ==> SeatOk(s, c.tenant, c.phase.seat))
  }

  /** On one refresh state, sequences are distinct and ordered as tickets are. */
  ghost predicate PairOk(c: Call, d: Call) {
    Seated(c) && Seated(d) && c.phase.seat.state == d.phase.seat.state ==>
      && c.phase.seat.sequence != d.phase.seat.sequence && c.phase.seat.ticket != d.phase.seat.ticket
      && (c.phase.seat.sequence < d.phase.seat.sequence <==> c.phase.seat.ticket < d.phase.seat.ticket)
  }

  /** An answer holds every mutation that had returned when its call started, within the age its source allows. */
  ghost predicate Sound(config: Config, a: Answer) {
    && a.floor <= a.version
    && (a.source.Hit? ==> Within(config.maxStaleness, a.source.at, a.source.fetched))
    && (a.source.Fallback? ==> config.policy == FailOpen && Within(config.maxOutageStaleness, a.source.at, a.source.fetched))
  }

  ghost predicate Logged(config: Config, s: System) {
    && (forall i :: 0 <= i < |s.answers| ==> Sound(config, s.answers[i]))
    && (forall i :: 0 <= i < |s.publications| ==> s.publications[i].ticket <= s.Of(s.publications[i].tenant).newest)
    && (forall i, j :: 0 <= i < j < |s.publications| && s.publications[i].tenant == s.publications[j].tenant ==>
          s.publications[i].ticket < s.publications[j].ticket)
  }

  ghost predicate Inv(config: Config, s: System) {
    && PendingOk(s)
    && (forall i: nat :: CountersOk(s, i) && Counted(s, i))
    && (forall t :: TenantOk(s, t))
    && (forall id :: id in s.calls ==> CallOk(s, s.calls[id]))
    && (forall a, b :: a in s.calls && b in s.calls && a != b ==> PairOk(s.calls[a], s.calls[b]))
    && Logged(config, s)
    && |s.cache.entries| <= config.maxTenants
  }

  // ---- Preservation, one call, tenant or refresh state at a time ----

  function ActingCall(e: Event): (id: Option<nat>) {
    match e
    case Start(id, _, _) => Some(id)
    case Admit(id) => Some(id)
    case Fetch(id) => Some(id)
    case FailFetch(id) => Some(id)
    case Publish(id, _) => Some(id)
    case Finish(id) => Some(id)
    case _ => None
  }

  /** What the step's own call, tenant and mutation contribute. */
  ghost predicate ActorOk(s: System, e: Event) {
    && |s.owners| == |s.cache.states|
    && (ActingCall(e).Some? && ActingCall(e).value in s.calls ==>
          var c := s.calls[ActingCall(e).value];
          CallOk(s, c) && TenantOk(s, c.tenant)
          && (c.tenant in s.cache.refreshes ==> CountersOk(s, s.cache.refreshes[c.tenant]))
          && (Seated(c) ==> CountersOk(s, c.phase.seat.state)))
    && (e.Start? ==> TenantOk(s, e.tenant))
    && (e.Return? && e.mutation in s.pending ==> s.pending[e.mutation].version <= s.Of(s.pending[e.mutation].tenant).commits)
  }

  ghost predicate SameElsewhere(calls: map<nat, Call>, calls': map<nat, Call>, id: nat) {
    forall a :: a != id ==> (a in calls <==> a in calls') && (a in calls ==> calls[a] == calls'[a])
  }

  lemma SittingChange(calls: map<nat, Call>, calls': map<nat, Call>, id: nat, i: nat)
    requires SameElsewhere(calls, calls', id)
    ensures var before, after := Sitting(calls, i), Sitting(calls', i);
            |after| == |before| + (if id in after then 1 else 0) - (if id in before then 1 else 0)
  {
    var before, after := Sitting(calls, i), Sitting(calls', i);
    assert before - {id} == after - {id};
    RemoveOne(before, id);
    RemoveOne(after, id);
  }

  lemma RemoveOne(s: set<nat>, id: nat)
    ensures |s - {id}| == |s| - (if id in s then 1 else 0)
  {
    if id !in s { assert s - {id} == s; }
  }

  /** A seat either was held before the step or is the newest ticket with the next sequence of its state. */
  ghost predicate SeatKept(s: System, e: Event, a: nat, c: Call) {
    Seated(c) ==>
      if e == Admit(a) then
        c.phase.seat.ticket == s.ticket
        && (c.phase.seat.state < |s.cache.states| ==> c.phase.seat.sequence > s.cache.states[c.phase.seat.state].next)
      else a in s.calls && Seated(s.calls[a]) && s.calls[a].phase.seat == c.phase.seat
  }

  ghost predicate PendingOk(s: System) {
    && |s.owners| == |s.cache.states|
    && forall m :: m in s.pending ==> s.pending[m].version <= s.Of(s.pending[m].tenant).commits
  }

  lemma StartCounts(config: Config, s: System, e: Event, i: nat)
    requires e.Start? && Enabled(s, e) && ActorOk(s, e) && Counted(s, i) && CountersOk(s, i)
    ensures Counted(Apply(config, s, e), i) && CountersOk(Apply(config, s, e), i)
  {
    SittingChange(s.calls, Apply(config, s, e).calls, e.id, i);
  }

  lemma AdmitCounts(config: Config, s: System, e: Event, i: nat)
    requires e.Admit? && Enabled(s, e) && ActorOk(s, e) && Counted(s, i) && CountersOk(s, i)
    requires i == |s.cache.states| ==> Sitting(s.calls, i) == {}
    ensures Counted(Apply(config, s, e), i) && CountersOk(Apply(config, s, e), i)
  {
    SittingChange(s.calls, Apply(config, s, e).calls, e.id, i);
  }

  lemma ReadCounts(config: Config, s: System, e: Event, i: nat)
    requires (e.Fetch? || e.FailFetch?) && Enabled(s, e) && ActorOk(s, e) && Counted(s, i) && CountersOk(s, i)
    ensures Counted(Apply(config, s, e), i) && CountersOk(Apply(config, s, e), i)
  {
    SittingChange(s.calls, Apply(config, s, e).calls, e.id, i);
  }

  lemma PublishCounts(config: Config, s: System, e: Event, i: nat)
    requires e.Publish? && Enabled(s, e) && ActorOk(s, e) && Counted(s, i) && CountersOk(s, i)
    ensures Counted(Apply(config, s, e), i) && CountersOk(Apply(config, s, e), i)
  {
    SittingChange(s.calls, Apply(config, s, e).calls, e.id, i);
  }

  lemma FinishCounts(config: Config, s: System, e: Event, i: nat)
    requires e.Finish? && Enabled(s, e) && ActorOk(s, e) && Counted(s, i) && CountersOk(s, i)
    ensures Counted(Apply(config, s, e), i) && CountersOk(Apply(config, s, e), i)
  {
    SittingChange(s.calls, Apply(config, s, e).calls, e.id, i);
  }

  lemma StartTenant(config: Config, s: System, e: Event, t: string)
    requires e.Start? && Enabled(s, e) && ActorOk(s, e) && TenantOk(s, t) && PendingOk(s)
    ensures TenantOk(Apply(config, s, e), t) && PendingOk(Apply(config, s, e))
  {
  }

  lemma AdmitTenant(config: Config, s: System, e: Event, t: string)
    requires e.Admit? && Enabled(s, e) && ActorOk(s, e) && TenantOk(s, t) && PendingOk(s)
    ensures TenantOk(Apply(config, s, e), t) && PendingOk(Apply(config, s, e))
  {
  }

  lemma ReadTenant(config: Config, s: System, e: Event, t: string)
    requires (e.Fetch? || e.FailFetch?) && Enabled(s, e) && ActorOk(s, e) && TenantOk(s, t) && PendingOk(s)
    ensures TenantOk(Apply(config, s, e), t) && PendingOk(Apply(config, s, e))
  {
  }

  lemma PublishTenant(config: Config, s: System, e: Event, t: string)
    requires e.Publish? && Enabled(s, e) && ActorOk(s, e) && TenantOk(s, t) && PendingOk(s)
    ensures TenantOk(Apply(config, s, e), t) && PendingOk(Apply(config, s, e))
  {
  }

  lemma FinishTenant(config: Config, s: System, e: Event, t: string)
    requires e.Finish? && Enabled(s, e) && ActorOk(s, e) && TenantOk(s, t) && PendingOk(s)
    ensures TenantOk(Apply(config, s, e), t) && PendingOk(Apply(config, s, e))
  {
  }

  lemma WriteTenant(config: Config, s: System, e: Event, t: string)
    requires (e.Commit? || e.Return? || e.Close?) && Enabled(s, e) && ActorOk(s, e) && TenantOk(s, t) && PendingOk(s)
    ensures TenantOk(Apply(config, s, e), t) && PendingOk(Apply(config, s, e))
  {
  }

  lemma CallFrame(s: System, s': System, c: Call)
    requires CallOk(s, c)
    requires s'.cache == s.cache && s'.ticket == s.ticket && s'.owners == s.owners
    requires s'.books == s.books && s'.cleared == s.cleared
    ensures CallOk(s', c)
  {
  }

  lemma StartCall(config: Config, s: System, e: Event, a: nat)
    requires e.Start? && Enabled(s, e) && TenantOk(s, e.tenant)
    requires a in s.calls ==> CallOk(s, s.calls[a])
    ensures var s' := Apply(config, s, e); a in s'.calls ==> CallOk(s', s'.calls[a]) && SeatKept(s, e, a, s'.calls[a])
  {
    if a in s.calls { CallFrame(s, Apply(config, s, e), s.calls[a]); }
  }

  lemma ReadsFrame(s: System, s': System, c: Call)
    requires ReadsOk(s, c) && s'.Of(c.tenant).returned == s.Of(c.tenant).returned && Barrier(s', c.tenant) == Barrier(s, c.tenant)
    ensures ReadsOk(s', c)
  {
  }

  lemma AdmitSeat(config: Config, s: System, e: Event, c: Call)
    requires e.Admit? && Enabled(s, e) && ActorOk(s, e) && CallOk(s, c) && TenantOk(s, c.tenant) && Seated(c)
    ensures SeatOk(Apply(config, s, e), c.tenant, c.phase.seat)
  {
  }

  lemma AdmitCall(config: Config, s: System, e: Event, a: nat)
    requires e.Admit? && Enabled(s, e) && ActorOk(s, e)
    requires a in s.calls && CallOk(s, s.calls[a]) && TenantOk(s, s.calls[a].tenant)
    ensures var s' := Apply(config, s, e); a in s'.calls ==> CallOk(s', s'.calls[a]) && SeatKept(s, e, a, s'.calls[a])
  {
    ReadsFrame(s, Apply(config, s, e), s.calls[a]);
    if a != e.id && Seated(s.calls[a]) { AdmitSeat(config, s, e, s.calls[a]); }
  }

  lemma ReadCall(config: Config, s: System, e: Event, a: nat)
    requires (e.Fetch? || e.FailFetch?) && Enabled(s, e) && ActorOk(s, e)
    requires a in s.calls && CallOk(s, s.calls[a]) && TenantOk(s, s.calls[a].tenant)
    ensures var s' := Apply(config, s, e); a in s'.calls ==> CallOk(s', s'.calls[a]) && SeatKept(s, e, a, s'.calls[a])
  {
  }

  lemma PublishSeat(config: Config, s: System, e: Event, c: Call)
    requires e.Publish? && Enabled(s, e) && ActorOk(s, e)
    requires CallOk(s, c) && Seated(c) && (c == s.calls[e.id] || PairOk(c, s.calls[e.id]))
    ensures SeatOk(Apply(config, s, e), c.tenant, c.phase.seat)
  {
  }

  lemma PublishCall(config: Config, s: System, e: Event, a: nat)
    requires e.Publish? && Enabled(s, e) && ActorOk(s, e)
    requires a in s.calls && CallOk(s, s.calls[a]) && (a != e.id ==> PairOk(s.calls[a], s.calls[e.id]))
    ensures var s' := Apply(config, s, e); a in s'.calls ==> CallOk(s', s'.calls[a]) && SeatKept(s, e, a, s'.calls[a])
  {
    ReadsFrame(s, Apply(config, s, e), s.calls[a]);
    if Seated(s.calls[a]) { PublishSeat(config, s, e, s.calls[a]); }
  }

  lemma FinishCall(config: Config, s: System, e: Event, a: nat)
    requires e.Finish? && Enabled(s, e) && ActorOk(s, e)
    requires a in s.calls && CallOk(s, s.calls[a]) && TenantOk(s, s.calls[a].tenant)
    requires Seated(s.calls[a]) && a != e.id && s.calls[a].phase.seat.state == s.calls[e.id].phase.seat.state ==>
               s.cache.states[s.calls[a].phase.seat.state].running > 1
    ensures var s' := Apply(config, s, e); a in s'.calls ==> CallOk(s', s'.calls[a]) && SeatKept(s, e, a, s'.calls[a])
  {
  }

  lemma WriteCall(config: Config, s: System, e: Event, a: nat)
    requires (e.Commit? || e.Return? || e.Close?) && Enabled(s, e) && ActorOk(s, e)
    requires a in s.calls && CallOk(s, s.calls[a]) && TenantOk(s, s.calls[a].tenant)
    ensures var s' := Apply(config, s, e); a in s'.calls ==> CallOk(s', s'.calls[a]) && SeatKept(s, e, a, s'.calls[a])
  {
  }

  lemma CountsStep(config: Config, s: System, e: Event, i: nat)
    requires Inv(config, s) && Enabled(s, e)
    ensures Counted(Apply(config, s, e), i) && CountersOk(Apply(config, s, e), i)
  {
    InvGivesActor(config, s, e);
    assert CountersOk(s, i) && Counted(s, i);
    match e
    case Start(_, _, _) => StartCounts(config, s, e, i);
    case Admit(_) =>
      if i == |s.cache.states| {
        assert forall id :: id in s.calls && Seated(s.calls[id]) ==> s.calls[id].phase.seat.state < i by {
          forall id | id in s.calls && Seated(s.calls[id]) ensures s.calls[id].phase.seat.state < i {
            assert CallOk(s, s.calls[id]);
          }
        }
        assert Sitting(s.calls, i) == {};
      }
      AdmitCounts(config, s, e, i);
    case Fetch(_) => ReadCounts(config, s, e, i);
    case FailFetch(_) => ReadCounts(config, s, e, i);
    case Publish(_, _) => PublishCounts(config, s, e, i);
    case Finish(_) => FinishCounts(config, s, e, i);
    case _ =>
  }

  lemma InvGivesActor(config: Config, s: System, e: Event)
    requires Inv(config, s)
    ensures ActorOk(s, e)
  {
    if ActingCall(e).Some? && ActingCall(e).value in s.calls {
      var c := s.calls[ActingCall(e).value];
      assert CallOk(s, c) && TenantOk(s, c.tenant);
      assert c.tenant in s.cache.refreshes ==> CountersOk(s, s.cache.refreshes[c.tenant]);
      assert Seated(c) ==> CountersOk(s, c.phase.seat.state);
    }
    if e.Start? { assert TenantOk(s, e.tenant); }
  }

  lemma TenantStep(config: Config, s: System, e: Event, t: string)
    requires Inv(config, s) && Enabled(s, e)
    ensures TenantOk(Apply(config, s, e), t) && PendingOk(Apply(config, s, e))
  {
    InvGivesActor(config, s, e);
    assert TenantOk(s, t);
    match e
    case Start(_, _, _) => StartTenant(config, s, e, t);
    case Admit(_) => AdmitTenant(config, s, e, t);
    case Fetch(_) => ReadTenant(config, s, e, t);
    case FailFetch(_) => ReadTenant(config, s, e, t);
    case Publish(_, _) => PublishTenant(config, s, e, t);
    case Finish(_) => FinishTenant(config, s, e, t);
    case _ => WriteTenant(config, s, e, t);
  }

  /** A refresh state is dropped at quiescence only when nobody else sits on it. */
  lemma LastOneOut(config: Config, s: System, id: nat, a: nat)
    requires Inv(config, s) && id in s.calls && a in s.calls && a != id
    requires Seated(s.calls[id]) && Seated(s.calls[a]) && s.calls[a].phase.seat.state == s.calls[id].phase.seat.state
    ensures s.calls[id].phase.seat.state < |s.cache.states| && s.cache.states[s.calls[id].phase.seat.state].running > 1
  {
    var state := s.calls[id].phase.seat.state;
    assert CallOk(s, s.calls[id]) && Counted(s, state);
    assert {id, a} <= Sitting(s.calls, state);
    assert Sitting(s.calls, state) == {id, a} + (Sitting(s.calls, state) - {id, a});
  }

  lemma CallStep(config: Config, s: System, e: Event, a: nat)
    requires Inv(config, s) && Enabled(s, e)
    requires a in Apply(config, s, e).calls
    ensures CallOk(Apply(config, s, e), Apply(config, s, e).calls[a])
    ensures SeatKept(s, e, a, Apply(config, s, e).calls[a])
  {
    InvGivesActor(config, s, e);
    if a in s.calls { assert CallOk(s, s.calls[a]) && TenantOk(s, s.calls[a].tenant); }
    match e
    case Start(_, _, _) => StartCall(config, s, e, a);
    case Admit(_) => AdmitCall(config, s, e, a);
    case Fetch(_) => ReadCall(config, s, e, a);
    case FailFetch(_) => ReadCall(config, s, e, a);
    case Publish(id, _) =>
      assert a != id ==> PairOk(s.calls[a], s.calls[id]);
      PublishCall(config, s, e, a);
    case Finish(id) =>
      if a != id && Seated(s.calls[a]) && s.calls[a].phase.seat.state == s.calls[id].phase.seat.state {
        LastOneOut(config, s, id, a);
      }
      FinishCall(config, s, e, a);
    case _ => WriteCall(config, s, e, a);
  }

  lemma PairKept(s: System, e: Event, a: nat, b: nat, c: Call, d: Call)
    requires SeatKept(s, e, a, c) && SeatKept(s, e, b, d) && a != b
    requires a in s.calls && b in s.calls ==> PairOk(s.calls[a], s.calls[b])
    requires a in s.calls ==> CallOk(s, s.calls[a])
    requires b in s.calls ==> CallOk(s, s.calls[b])
    ensures PairOk(c, d)
  {
  }

  lemma SoundlyLogged(config: Config, s: System, s': System, a: Answer)
    requires Logged(config, s) && s'.publications == s.publications && s'.books == s.books
    requires s'.answers == s.answers + [a] && Sound(config, a)
    ensures Logged(config, s')
  {
  }

  lemma HitLogged(config: Config, s: System, e: Event)
    requires e.Start? && Enabled(s, e) && ActorOk(s, e) && Logged(config, s)
    ensures Logged(config, Apply(config, s, e))
  {
    var s' := Apply(config, s, e);
    if s'.answers != s.answers { SoundlyLogged(config, s, s', s'.answers[|s.answers|]); }
  }

  lemma OutcomeLogged(config: Config, s: System, e: Event)
    requires e.Finish? && Enabled(s, e) && ActorOk(s, e) && Logged(config, s)
    ensures Logged(config, Apply(config, s, e))
  {
    var answer := Outcome(config, s.calls[e.id]);
    if answer.Some? { SoundlyLogged(config, s, Apply(config, s, e), answer.value); }
  }

  lemma PublicationLogged(config: Config, s: System, e: Event)
    requires e.Publish? && Enabled(s, e) && ActorOk(s, e) && Logged(config, s)
    ensures Logged(config, Apply(config, s, e))
  {
    var s' := Apply(config, s, e);
    var seat := s.calls[e.id].phase.seat;
    assert SeatOk(s, s.calls[e.id].tenant, seat);
    assert s'.answers == s.answers;
  }

  lemma LogStep(config: Config, s: System, e: Event)
    requires Enabled(s, e) && ActorOk(s, e) && Logged(config, s)
    ensures Logged(config, Apply(config, s, e))
  {
    match e
    case Start(_, _, _) => HitLogged(config, s, e);
    case Finish(_) => OutcomeLogged(config, s, e);
    case Publish(_, _) => PublicationLogged(config, s, e);
    case Admit(_) =>
    case Fetch(_) =>
    case FailFetch(_) =>
    case Commit(_, _) =>
    case Return(_) =>
    case Close =>
  }

  lemma PublishedFits<S>(c: CacheState<S>, max: nat, tenant: string, state: nat, sequence: nat, entry: Entry<S>)
    requires state < |c.states| && |c.entries| <= max && 0 < max
    ensures |Published(c, max, tenant, state, sequence, entry).entries| <= max
  {
    var kept := if NeedsRoom(c, max, tenant) then Evict(c.entries) else c.entries;
    assert kept[tenant := entry].Keys == kept.Keys + {tenant};
    assert |kept[tenant := entry]| == |kept[tenant := entry].Keys| && |kept| == |kept.Keys|;
  }

  lemma InvalidatedFits<S>(c: CacheState<S>, tenant: string)
    ensures |Invalidated(c, tenant).entries| <= |c.entries|
  {
    var after := Invalidated(c, tenant).entries;
    assert |after| == |after.Keys| && |c.entries| == |c.entries.Keys|;
    assert c.entries.Keys == after.Keys + (c.entries.Keys - after.Keys);
  }

  lemma RoomStep(config: Config, s: System, e: Event)
    requires config.Valid() && Enabled(s, e) && |s.cache.entries| <= config.maxTenants
    ensures |Apply(config, s, e).cache.entries| <= config.maxTenants
  {
    match e
    case Publish(id, at) =>
      var c := s.calls[id];
      PublishedFits(s.cache, config.maxTenants, c.tenant, c.phase.seat.state, c.phase.seat.sequence, Entry(c.phase.read, at));
    case Return(m) => InvalidatedFits(s.cache, s.pending[m].tenant);
    case Start(_, _, _) =>
    case Admit(_) =>
    case Fetch(_) =>
    case FailFetch(_) =>
    case Finish(_) =>
    case Commit(_, _) =>
    case Close =>
  }

  lemma SeatsStep(config: Config, s: System, e: Event)
    requires Inv(config, s) && Enabled(s, e)
    ensures var s' := Apply(config, s, e); forall a :: a in s'.calls ==> CallOk(s', s'.calls[a])
    ensures var calls := Apply(config, s, e).calls;
            forall a, b :: a in calls && b in calls && a != b ==> PairOk(calls[a], calls[b])
  {
    var s' := Apply(config, s, e);
    forall a | a in s'.calls ensures CallOk(s', s'.calls[a]) && SeatKept(s, e, a, s'.calls[a]) { CallStep(config, s, e, a); }
    forall a, b | a in s'.calls && b in s'.calls && a != b ensures PairOk(s'.calls[a], s'.calls[b]) {
      PairKept(s, e, a, b, s'.calls[a], s'.calls[b]);
    }
  }

  lemma TenantsStep(config: Config, s: System, e: Event)
    requires Inv(config, s) && Enabled(s, e)
    ensures forall i: nat :: CountersOk(Apply(config, s, e), i) && Counted(Apply(config, s, e), i)
    ensures forall t :: TenantOk(Apply(config, s, e), t)
    ensures PendingOk(Apply(config, s, e))
  {
    var s' := Apply(config, s, e);
    forall i: nat ensures CountersOk(s', i) && Counted(s', i) { CountsStep(config, s, e, i); }
    forall t ensures TenantOk(s', t) { TenantStep(config, s, e, t); }
    TenantStep(config, s, e, "");
  }

  /** Every step of every call, mutation and Close keeps the protocol's invariant. */
  lemma StepKeepsInv(config: Config, s: System, e: Event)
    requires config.Valid() && Inv(config, s) && Enabled(s, e)
    ensures Inv(config, Apply(config, s, e))
  {
    TenantsStep(config, s, e);
    SeatsStep(config, s, e);
    InvGivesActor(config, s, e);
    LogStep(config, s, e);
    RoomStep(config, s, e);
  }

  // ---- Runs ----

  ghost predicate IsRun(config: Config, states: seq<System>, events: seq<Event>) {
    && |states| == |events| + 1
    && states[0] == INITIAL
    && forall i :: 0 <= i < |events| ==> Enabled(states[i], events[i]) && states[i + 1] == Apply(config, states[i], events[i])
  }

  lemma {:induction false} RunKeepsInv(config: Config, states: seq<System>, events: seq<Event>, i: nat)
    requires config.Valid() && IsRun(config, states, events) && i < |states|
    ensures Inv(config, states[i])
  {
    if i == 0 {
      assert forall k :: Sitting(INITIAL.calls, k) == {};
    } else {
      RunKeepsInv(config, states, events, i - 1);
      StepKeepsInv(config, states[i - 1], events[i - 1]);
    }
  }

  /**
   * The fence. After any run, a cached entry was admitted after its tenant's last invalidation and the last
   * Close, holds every mutation that has returned, and every answer ever given holds every mutation that had
   * returned when its call started, within the age bound of its source.
   */
  lemma AnswersContainReturnedMutations(config: Config, states: seq<System>, events: seq<Event>, i: nat)
    requires config.Valid() && IsRun(config, states, events) && i < |states|
    ensures forall t :: t in states[i].cache.entries ==>
              && Barrier(states[i], t) <= states[i].cache.entries[t].snapshot.ticket
              && states[i].Of(t).returned <= states[i].cache.entries[t].snapshot.version
    ensures forall k :: 0 <= k < |states[i].answers| ==> Sound(config, states[i].answers[k])
  {
    RunKeepsInv(config, states, events, i);
    forall t | t in states[i].cache.entries
      ensures Barrier(states[i], t) <= states[i].cache.entries[t].snapshot.ticket
              && states[i].Of(t).returned <= states[i].cache.entries[t].snapshot.version
    {
      assert TenantOk(states[i], t);
    }
  }

  /**
   * Publication order over a whole run: a tenant's publications have strictly increasing admission tickets,
   * and a reader that holds a snapshot publishes exactly when its tenant has been neither invalidated, closed
   * nor rotated since its admission and no later admission has already published. Failed refreshes never matter.
   */
  lemma PublicationOrder(config: Config, states: seq<System>, events: seq<Event>, i: nat)
    requires config.Valid() && IsRun(config, states, events) && i < |states|
    ensures var log := states[i].publications;
            forall j, k :: 0 <= j < k < |log| && log[j].tenant == log[k].tenant ==> log[j].ticket < log[k].ticket
    ensures forall id :: id in states[i].calls && states[i].calls[id].phase.Holding? ==>
              var c := states[i].calls[id];
              c.phase.seat.state < |states[i].cache.states|
              && (MayPublish(states[i].cache, c.tenant, c.phase.seat.state, c.phase.seat.sequence)
                  <==> Fence(states[i], c.tenant) <= c.phase.seat.ticket && states[i].Of(c.tenant).newest < c.phase.seat.ticket)
  {
    RunKeepsInv(config, states, events, i);
    var s := states[i];
    forall id | id in s.calls && s.calls[id].phase.Holding?
      ensures SeatOk(s, s.calls[id].tenant, s.calls[id].phase.seat)
    {
      assert CallOk(s, s.calls[id]);
    }
  }

  /** How one step changes the cached entries. */
  ghost predicate EntriesStep(config: Config, s: System, e: Event, s': System)
    requires Enabled(s, e)
  {
    var before, after := s.cache.entries, s'.cache.entries;
    match e
    case Publish(id, at) =>
      var c := s.calls[id];
      if Fence(s, c.tenant) <= c.phase.seat.ticket && s.Of(c.tenant).newest < c.phase.seat.ticket
      then Replaced(before, config.maxTenants, c.tenant, Entry(c.phase.read, at), after)
      else after == before
    case Return(m) => after == before - {s.pending[m].tenant}
    case Close => after == map[]
    case _ => after == before
  }

  lemma StepChangesEntries(config: Config, s: System, e: Event)
    requires Inv(config, s) && Enabled(s, e)
    ensures EntriesStep(config, s, e, Apply(config, s, e))
  {
    if e.Publish? {
      var c := s.calls[e.id];
      assert CallOk(s, c);
      hide Published, Replaced;
      PublicationReplaces(s.cache, config.maxTenants, c.tenant, c.phase.seat.state, c.phase.seat.sequence, Entry(c.phase.read, e.at));
    }
  }

  /**
   * Who loses an entry, and when. In every run an entry disappears only by its own tenant's invalidation, by a Close,
   * or by the publication of an uncached tenant into a cache at its bound, and then it is the oldest one. An entry
   * appears or changes only by its own tenant's publication, to what that call read.
   */
  lemma EntriesChangeOnlyBy(config: Config, states: seq<System>, events: seq<Event>, i: nat, t: string)
    requires config.Valid() && IsRun(config, states, events) && i < |events|
    ensures EntriesStep(config, states[i], events[i], states[i + 1])
    ensures var s, before, after := states[i], states[i].cache.entries, states[i + 1].cache.entries;
            && (t in before && t !in after ==>
                  match events[i]
                  case Publish(id, _) => s.calls[id].tenant !in before && |before| == config.maxTenants && IsOldest(before, t)
                  case Return(m) => s.pending[m].tenant == t
                  case Close => true
                  case _ => false)
            && (t in after && (t !in before || before[t] != after[t]) ==>
                  && events[i].Publish? && s.calls[events[i].id].tenant == t
                  && after[t] == Entry(s.calls[events[i].id].phase.read, events[i].at))
  {
    RunKeepsInv(config, states, events, i);
    assert Enabled(states[i], events[i]);
    assert states[i + 1] == Apply(config, states[i], events[i]);
    StepChangesEntries(config, states[i], events[i]);
    EntriesAfter(config, states[i], events[i], states[i + 1], t);
  }

  lemma EntriesAfter(config: Config, s: System, e: Event, s': System, t: string)
    requires config.Valid() && Enabled(s, e) && EntriesStep(config, s, e, s') && |s.cache.entries| <= config.maxTenants
    ensures var before, after := s.cache.entries, s'.cache.entries;
            && (t in before && t !in after ==>
                  match e
                  case Publish(id, _) => s.calls[id].tenant !in before && |before| == config.maxTenants && IsOldest(before, t)
                  case Return(m) => s.pending[m].tenant == t
                  case Close => true
                  case _ => false)
            && (t in after && (t !in before || before[t] != after[t]) ==>
                  && e.Publish? && s.calls[e.id].tenant == t && after[t] == Entry(s.calls[e.id].phase.read, e.at))
  {
    if e.Publish? {
      var c := s.calls[e.id];
      if Replaced(s.cache.entries, config.maxTenants, c.tenant, Entry(c.phase.read, e.at), s'.cache.entries) {
        ReplacedEntry(s.cache.entries, config.maxTenants, c.tenant, Entry(c.phase.read, e.at), s'.cache.entries);
        if t != c.tenant {
          OnlyTheOldestGoes(s.cache.entries, config.maxTenants, c.tenant, Entry(c.phase.read, e.at), s'.cache.entries, t);
        }
      }
    }
  }

  lemma ReplacedEntry<S>(before: map<string, Entry<S>>, max: nat, tenant: string, entry: Entry<S>, after: map<string, Entry<S>>)
    requires 0 < max && Replaced(before, max, tenant, entry, after)
    ensures tenant in after && after[tenant] == entry
  {
    if tenant !in before && |before| >= max { var _ := OldestExists(before); }
  }

  /**
   * Tracking and capacity: each state's counter is its number of outstanding refreshes and never exceeds the
   * 64-bit admission counter, tracking is empty once nothing is outstanding, and entries fit the tenant bound.
   */
  lemma TrackingIsExact(config: Config, states: seq<System>, events: seq<Event>, i: nat)
    requires config.Valid() && IsRun(config, states, events) && i < |states|
    ensures var c := states[i].cache;
            forall k :: 0 <= k < |c.states| ==>
              c.states[k].running == |Sitting(states[i].calls, k)| && c.states[k].running <= c.states[k].next <= MAX_SEQUENCE
    ensures (forall id :: id in states[i].calls ==> !Seated(states[i].calls[id])) ==> states[i].cache.refreshes == map[]
    ensures |states[i].cache.entries| <= config.maxTenants
  {
    RunKeepsInv(config, states, events, i);
    var s := states[i];
    forall k | 0 <= k < |s.cache.states|
      ensures s.cache.states[k].running == |Sitting(s.calls, k)|
              && s.cache.states[k].running <= s.cache.states[k].next <= MAX_SEQUENCE
    {
      assert CountersOk(s, k) && Counted(s, k);
    }
    forall t | t in s.cache.refreshes ensures exists id :: id in s.calls && Seated(s.calls[id]) {
      assert TenantOk(s, t) && Counted(s, s.cache.refreshes[t]);
      assert Sitting(s.calls, s.cache.refreshes[t]) != {};
      var id :| id in Sitting(s.calls, s.cache.refreshes[t]);
    }
  }
}
