/** The bounded-stale snapshot cache: one function per lock region, and the class that performs them. */
module SnapshotCache {
  import opened Ordering
  import opened Model

  /** The largest value of the 64-bit admission counter. */
  const MAX_SEQUENCE: nat := 0xFFFF_FFFF_FFFF_FFFF

  datatype FailurePolicy = FailClosed | FailOpen

  datatype Config = Config(
    maxStaleness: nat, maxOutageStaleness: nat, policy: FailurePolicy, maxTenants: nat, maxTenantBytes: nat)
  {
    predicate Valid() { 0 < maxStaleness <= maxOutageStaleness && 0 < maxTenants && 0 < maxTenantBytes }
  }

  datatype Entry<+S> = Entry(snapshot: S, fetched: int)

  datatype Counters = Counters(running: nat, next: nat, published: nat)

  /** `refreshes` holds pointers: each refresh state ever allocated is a position in `states`. */
  datatype CacheState<+S> = CacheState(entries: map<string, Entry<S>>, refreshes: map<string, nat>, states: seq<Counters>)
  {
    ghost predicate Valid() {
      && (forall t :: t in refreshes ==> refreshes[t] < |states|)
      && (forall i :: 0 <= i < |states| ==> states[i].running <= states[i].next <= MAX_SEQUENCE && states[i].published <= states[i].next)
    }

    predicate Current(tenant: string, state: nat) { tenant in refreshes && refreshes[tenant] == state }
  }

  /** Whether an admission must start a new refresh state. */
  predicate Rotates<S>(c: CacheState<S>, tenant: string)
    requires tenant in c.refreshes ==> c.refreshes[tenant] < |c.states|
  {
    tenant !in c.refreshes || c.states[c.refreshes[tenant]].next == MAX_SEQUENCE
  }

  /** The cache after an admission, with the admitted caller's state and sequence. */
  function Admitted<S>(c: CacheState<S>, tenant: string): (r: (CacheState<S>, nat, nat))
    requires tenant in c.refreshes ==> c.refreshes[tenant] < |c.states|
  {
    var c1 := if Rotates(c, tenant)
              then c.(states := c.states + [Counters(0, 0, 0)], refreshes := c.refreshes[tenant := |c.states|])
              else c;
    var state := c1.refreshes[tenant];
    var k := c1.states[state];
    (c1.(states := c1.states[state := k.(running := k.running + 1, next := k.next + 1)]), state, k.next + 1)
  }

  ghost predicate IsOldest<S>(entries: map<string, Entry<S>>, tenant: string) {
    && tenant in entries
    && forall t :: t in entries ==>
         entries[tenant].fetched < entries[t].fetched
         || (entries[tenant].fetched == entries[t].fetched && StringLeq(tenant, t))
  }

  /** The least entry by fetch time and then tenant is unique, so the scan order cannot matter. */
  lemma OldestIsUnique<S>(entries: map<string, Entry<S>>, t: string, u: string)
    requires IsOldest(entries, t) && IsOldest(entries, u)
    ensures t == u
  {
    StringAntisymmetric(t, u);
  }

  lemma {:induction false} OldestExists<S>(entries: map<string, Entry<S>>) returns (oldest: string)
    requires entries != map[]
    ensures IsOldest(entries, oldest)
    decreases |entries|
  {
    var first :| first in entries;
    var rest := entries - {first};
    assert rest.Keys == entries.Keys - {first};
    assert |rest.Keys| == |rest| && |entries.Keys| == |entries|;
    StringOrderIsTotal();
    oldest := first;
    if rest != map[] {
      var other := OldestExists(rest);
      if entries[other].fetched < entries[first].fetched
         || (entries[other].fetched == entries[first].fetched && StringLeq(other, first)) {
        oldest := other;
      }
      assert forall t :: t in entries ==> t == first || t in rest;
    } else {
      assert forall t :: t in entries ==> t == first || t in rest;
    }
  }

  /** The entries left after making room: exactly the oldest is gone. */
  ghost function Evict<S>(entries: map<string, Entry<S>>): (r: map<string, Entry<S>>)
    ensures entries == map[] ==> r == map[]
    ensures entries != map[] ==> |r| == |entries| - 1
    ensures forall t :: IsOldest(entries, t) ==> r == entries - {t}
    ensures forall t :: t in r ==> t in entries && r[t] == entries[t]
  {
    if entries == map[] then map[]
    else
      assert exists t :: IsOldest(entries, t) by { var _ := OldestExists(entries); }
      var t :| IsOldest(entries, t);
      var r := entries - {t};
      assert r.Keys == entries.Keys - {t} && |r| == |r.Keys| && |entries| == |entries.Keys|;
      assert forall u :: IsOldest(entries, u) ==> u == t by {
        forall u | IsOldest(entries, u) ensures u == t { OldestIsUnique(entries, t, u); }
      }
      r
  }

  predicate MayPublish<S>(c: CacheState<S>, tenant: string, state: nat, sequence: nat)
    requires state < |c.states|
  {
    c.Current(tenant, state) && sequence > c.states[state].published
  }

  predicate NeedsRoom<S>(c: CacheState<S>, max: nat, tenant: string) {
    tenant !in c.entries && |c.entries| >= max
  }

  /** The publication region: a fenced or overtaken caller changes nothing. */
  ghost function Published<S>(c: CacheState<S>, max: nat, tenant: string, state: nat, sequence: nat, entry: Entry<S>): (r: CacheState<S>)
    requires state < |c.states|
  {
    if MayPublish(c, tenant, state, sequence) then
      var kept := if NeedsRoom(c, max, tenant) then Evict(c.entries) else c.entries;
      CacheState(kept[tenant := entry], c.refreshes, c.states[state := c.states[state].(published := sequence)])
    else c
  }

  /** A tenant already cached, or a cache below its bound, costs nobody an entry; otherwise exactly the oldest goes. */
  ghost predicate Replaced<S>(before: map<string, Entry<S>>, max: nat, tenant: string, entry: Entry<S>, after: map<string, Entry<S>>) {
    && (tenant in before || |before| < max ==> after == before[tenant := entry])
    && (tenant !in before && |before| >= max ==> forall t :: IsOldest(before, t) ==> after == (before - {t})[tenant := entry])
  }

  /** The tenant's current refresh, not yet overtaken, replaces its entry; anything else changes nothing at all. */
  lemma PublicationReplaces<S>(c: CacheState<S>, max: nat, tenant: string, state: nat, sequence: nat, entry: Entry<S>)
    requires state < |c.states|
    ensures var r := Published(c, max, tenant, state, sequence, entry);
            if tenant in c.refreshes && c.refreshes[tenant] == state && c.states[state].published < sequence
            then Replaced(c.entries, max, tenant, entry, r.entries) && r.refreshes == c.refreshes
                 && r.states == c.states[state := Counters(c.states[state].running, c.states[state].next, sequence)]
            else r == c
  {
    hide IsOldest;
  }

  /** What a publication costs the other tenants: nothing, or exactly the oldest entry of a cache at its bound. */
  lemma OnlyTheOldestGoes<S>(
    before: map<string, Entry<S>>, max: nat, tenant: string, entry: Entry<S>, after: map<string, Entry<S>>, t: string)
    requires 0 < max && Replaced(before, max, tenant, entry, after) && t != tenant
    ensures t in after ==> t in before && after[t] == before[t]
    ensures t in before && t !in after <==> tenant !in before && |before| >= max && IsOldest(before, t)
  {
    if tenant !in before && |before| >= max {
      var oldest := OldestExists(before);
      if IsOldest(before, t) { OldestIsUnique(before, t, oldest); }
    }
  }

  function Ended<S>(c: CacheState<S>, tenant: string, state: nat): (r: CacheState<S>)
    requires state < |c.states| && c.states[state].running > 0
  {
    var k := c.states[state].(running := c.states[state].running - 1);
    c.(states := c.states[state := k],
       refreshes := if k.running == 0 && c.Current(tenant, state) then c.refreshes - {tenant} else c.refreshes)
  }

  function Invalidated<S>(c: CacheState<S>, tenant: string): (r: CacheState<S>) {
    c.(entries := c.entries - {tenant}, refreshes := c.refreshes - {tenant})
  }

  function Cleared<S>(c: CacheState<S>): (r: CacheState<S>) {
    c.(entries := map[], refreshes := map[])
  }

  predicate Hits<S>(config: Config, entry: Option<Entry<S>>, now: int) {
    entry.Some? && Age(now, entry.value.fetched) <= config.maxStaleness
  }

  predicate FallsBack<S>(config: Config, entry: Option<Entry<S>>, now: int) {
    config.policy == FailOpen && entry.Some? && Age(now, entry.value.fetched) <= config.maxOutageStaleness
  }

  /** Served no later than the bound after it was fetched; a bound of the largest duration bounds nothing. */
  predicate Within(bound: nat, at: int, fetched: int) { bound < MAX_DURATION ==> at <= fetched + bound }

  /** An entry hits exactly within the bound; hits respect it at every instant exactly when it is below the largest duration. */
  lemma HitsAreFreshExactlyWhen(config: Config)
    ensures forall entry: Entry<int>, now :: Hits(config, Some(entry), now) <==> Within(config.maxStaleness, now, entry.fetched)
    ensures (forall entry: Entry<int>, now :: Hits(config, Some(entry), now) ==> now <= entry.fetched + config.maxStaleness)
            <==> config.maxStaleness < MAX_DURATION
  {
    if config.maxStaleness >= MAX_DURATION { assert Hits(config, Some(Entry(0, 0)), config.maxStaleness + 1); }
  }

  /** The same for fallbacks, which only a fail-open cache has. */
  lemma FallbacksAreBoundedExactlyWhen(config: Config)
    ensures forall entry: Entry<int>, now :: FallsBack(config, Some(entry), now)
              <==> config.policy == FailOpen && Within(config.maxOutageStaleness, now, entry.fetched)
    ensures (forall entry: Entry<int>, now :: FallsBack(config, Some(entry), now) ==> now <= entry.fetched + config.maxOutageStaleness)
            <==> config.policy == FailClosed || config.maxOutageStaleness < MAX_DURATION
  {
    if config.policy == FailOpen && config.maxOutageStaleness >= MAX_DURATION {
      assert FallsBack(config, Some(Entry(0, 0)), config.maxOutageStaleness + 1);
    }
  }

  /** The provider's reply to one refresh: a snapshot stamped when it was fetched, or a failure. */
  datatype Reply<+S> = Fetched(snapshot: S, at: int) | Failed

  predicate Rejected(config: Config, tenant: string) { tenant == "" || |tenant| > config.maxTenantBytes }

  /** A refresh that no other call overlaps: admission, publication of what was fetched, end. */
  ghost function RefreshedAlone<S>(config: Config, c: CacheState<S>, tenant: string, reply: Reply<S>): (r: CacheState<S>)
    requires c.Valid()
  {
    if Rejected(config, tenant) then c
    else
      var (admitted, state, sequence) := Admitted(c, tenant);
      var published := if reply.Fetched?
                       then Published(admitted, config.maxTenants, tenant, state, sequence, Entry(reply.snapshot, reply.at))
                       else admitted;
      Ended(published, tenant, state)
  }

  lemma AdmittedMayPublish<S>(c: CacheState<S>, tenant: string)
    requires c.Valid()
    ensures var (admitted, state, sequence) := Admitted(c, tenant);
            && admitted.Valid() && state < |admitted.states| && MayPublish(admitted, tenant, state, sequence)
            && admitted.entries == c.entries && admitted.refreshes == c.refreshes[tenant := state]
            && (tenant !in c.refreshes ==> admitted.states[state].running == 1) && admitted.states[state].running > 0
  {
  }

  /**
   * An undisturbed refresh always publishes what it fetched, drops the oldest entry only where a new tenant finds the
   * cache full, leaves the entries alone when it fails, and leaves no tracking behind where there was none.
   */
  lemma RefreshedAlonePublishes<S>(config: Config, c: CacheState<S>, tenant: string, reply: Reply<S>)
    requires c.Valid()
    ensures var r := RefreshedAlone(config, c, tenant, reply);
            if 0 < |tenant| <= config.maxTenantBytes then
              && (reply.Failed? ==> r.entries == c.entries)
              && (reply.Fetched? ==> Replaced(c.entries, config.maxTenants, tenant, Entry(reply.snapshot, reply.at), r.entries))
              && (tenant !in c.refreshes ==> r.refreshes == c.refreshes)
              && (forall t :: t != tenant ==> (t in r.refreshes <==> t in c.refreshes))
            else r == c
  {
    hide Admitted, Published, Replaced;
    AdmittedMayPublish(c, tenant);
    if reply.Fetched? {
      var (admitted, state, sequence) := Admitted(c, tenant);
      PublicationReplaces(admitted, config.maxTenants, tenant, state, sequence, Entry(reply.snapshot, reply.at));
    }
  }

  class CachedProvider<S> {
    const config: Config
    var entries: map<string, Entry<S>>
    var refreshes: map<string, nat>
    var states: seq<Counters>

    ghost function View(): (c: CacheState<S>)
      reads this
    {
      CacheState(entries, refreshes, states)
    }

    constructor (config: Config)
      requires config.Valid()
      ensures this.config == config && View() == CacheState(map[], map[], []) && View().Valid()
    {
      this.config := config;
      entries, refreshes, states := map[], map[], [];
    }

    method BeginRefresh(tenant: string) returns (state: nat, sequence: nat)
      requires View().Valid()
      modifies this
      ensures View().Valid() && (View(), state, sequence) == Admitted(old(View()), tenant)
      ensures state < |states| && 1 <= sequence == states[state].next <= MAX_SEQUENCE && states[state].running > 0
    {
      if tenant !in refreshes || states[refreshes[tenant]].next == MAX_SEQUENCE {
        states := states + [Counters(0, 0, 0)];
        refreshes := refreshes[tenant := |states| - 1];
      }
      state := refreshes[tenant];
      sequence := states[state].next + 1;
      states := states[state := Counters(states[state].running + 1, sequence, states[state].published)];
    }

    /** Two scans in arbitrary order: the least fetch time, then the least tenant that has it. */
    method EvictOldest()
      modifies this`entries
      ensures entries == Evict(old(entries))
    {
      var oldestTime, found := 0, false;
      var todo := entries.Keys;
      while todo != {}
        invariant todo <= entries.Keys && entries == old(entries)
        invariant !found ==> todo == entries.Keys
        invariant found ==> exists t :: t in entries && t !in todo && entries[t].fetched == oldestTime
        invariant found ==> forall t :: t in entries && t !in todo ==> oldestTime <= entries[t].fetched
        decreases |todo|
      {
        var t :| t in todo;
        if !found || entries[t].fetched < oldestTime {
          oldestTime, found := entries[t].fetched, true;
        }
        todo := todo - {t};
      }
      var oldestTenant, tenantFound := "", false;
      todo := entries.Keys;
      while todo != {}
        invariant todo <= entries.Keys && entries == old(entries)
        invariant !tenantFound ==> forall t :: t in entries && t !in todo ==> entries[t].fetched != oldestTime
        invariant tenantFound ==> oldestTenant in entries && entries[oldestTenant].fetched == oldestTime
        invariant tenantFound ==> forall t :: t in entries && t !in todo && entries[t].fetched == oldestTime ==>
                                    StringLeq(oldestTenant, t)
        decreases |todo|
      {
        var t :| t in todo;
        StringOrderIsTotal();
        if entries[t].fetched == oldestTime && (!tenantFound || !StringLeq(oldestTenant, t)) {
          oldestTenant, tenantFound := t, true;
        }
        todo := todo - {t};
      }
      assert entries != map[] ==> IsOldest(entries, oldestTenant);
      entries := entries - {oldestTenant};
    }

    method Publish(tenant: string, state: nat, sequence: nat, entry: Entry<S>)
      requires View().Valid() && state < |states| && sequence <= states[state].next
      modifies this
      ensures View() == Published(old(View()), config.maxTenants, tenant, state, sequence, entry)
      ensures View().Valid() && |states| == |old(states)| && states[state].running == old(states[state].running)
      ensures if tenant in old(refreshes) && old(refreshes)[tenant] == state && old(states)[state].published < sequence
              then Replaced(old(entries), config.maxTenants, tenant, entry, entries)
              else entries == old(entries) && states == old(states)
    {
      PublicationReplaces(View(), config.maxTenants, tenant, state, sequence, entry);
      if tenant in refreshes && refreshes[tenant] == state && sequence > states[state].published {
        if tenant !in entries && |entries| >= config.maxTenants {
          EvictOldest();
        }
        entries := entries[tenant := entry];
        states := states[state := states[state].(published := sequence)];
      }
    }

    method EndRefresh(tenant: string, state: nat)
      requires View().Valid() && state < |states| && states[state].running > 0
      modifies this
      ensures View().Valid() && View() == Ended(old(View()), tenant, state)
    {
      states := states[state := states[state].(running := states[state].running - 1)];
      if states[state].running == 0 && tenant in refreshes && refreshes[tenant] == state {
        refreshes := refreshes - {tenant};
      }
    }

    method InvalidateOnSuccess(tenant: string, failed: bool)
      requires View().Valid()
      modifies this
      ensures View().Valid() && View() == if failed then old(View()) else Invalidated(old(View()), tenant)
    {
      if failed { return; }
      entries := entries - {tenant};
      refreshes := refreshes - {tenant};
    }

    method Close()
      requires View().Valid()
      modifies this
      ensures View().Valid() && View() == Cleared(old(View()))
    {
      entries := map[];
      refreshes := map[];
    }

    /** One refresh that no other call overlaps. */
    method Refresh(tenant: string, reply: Reply<S>) returns (r: Option<S>)
      requires View().Valid()
      modifies this
      ensures View().Valid() && View() == RefreshedAlone(config, old(View()), tenant, reply)
      ensures r == if Rejected(config, tenant) || reply.Failed? then None else Some(reply.snapshot)
    {
      r := None;
      if tenant == "" || |tenant| > config.maxTenantBytes { return; }
      var state, sequence := BeginRefresh(tenant);
      if reply.Fetched? {
        Publish(tenant, state, sequence, Entry(reply.snapshot, reply.at));
        r := Some(reply.snapshot);
      }
      EndRefresh(tenant, state);
    }

    /** A fresh entry answers without refreshing; otherwise a refresh, then the bounded fallback. */
    method Snapshot(tenant: string, now: int, reply: Reply<S>) returns (r: Option<S>)
      requires View().Valid()
      modifies this
      ensures View().Valid()
      ensures var entry := if tenant in old(entries) then Some(old(entries)[tenant]) else None;
              && r == (if Rejected(config, tenant) then None
                       else if Hits(config, entry, now) then Some(entry.value.snapshot)
                       else if reply.Fetched? then Some(reply.snapshot)
                       else if FallsBack(config, entry, now) then Some(entry.value.snapshot)
                       else None)
              && View() == if Hits(config, entry, now) then old(View()) else RefreshedAlone(config, old(View()), tenant, reply)
    {
      if tenant == "" || |tenant| > config.maxTenantBytes { return None; }
      var entry := if tenant in entries then Some(entries[tenant]) else None;
      if entry.Some? && Age(now, entry.value.fetched) <= config.maxStaleness {
        return Some(entry.value.snapshot);
      }
      var fetched := Refresh(tenant, reply);
      if fetched.Some? { return fetched; }
      if config.policy == FailOpen && entry.Some? && Age(now, entry.value.fetched) <= config.maxOutageStaleness {
        return Some(entry.value.snapshot);
      }
      return None;
    }
  }
}
