/** The in-process provider: tenant-isolated maps updated in place, one call at a time. */
module Memory {
  import opened Ordering
  import opened Keyed
  import opened Model
  import opened GroupForest
  import opened DependencyGraph
  import opened Evaluator
  import opened Codec
  import opened Portable
  import opened Tenant
  import opened TenantInvariant

  datatype InputError = Cancelled | TenantRequired | TenantTooLong

  datatype Reply = BadInput(cause: InputError) | Answered(answer: Answer)

  function InputProblem(limits: Limits, cancelled: bool, tenant: string): (e: Option<InputError>) {
    if cancelled then Some(Cancelled)
    else if tenant == "" then Some(TenantRequired)
    else if |tenant| > limits.maxKeyBytes then Some(TenantTooLong)
    else None
  }

  // ---- Lists out of maps ----

  /** The live definitions, in whatever order the map yields them. */
  method DefinitionsFromRecords(records: map<string, Record>) returns (list: seq<Definition>)
    requires RecordsKeyed(records)
    ensures DistinctKeys(list, DefinitionKey) && Index(list, DefinitionKey) == Live(records)
  {
    list := [];
    var todo := records.Keys;
    assert DistinctKeys<string, Definition>([], DefinitionKey) && Index<string, Definition>([], DefinitionKey) == Live(records - todo);
    hide Live, Index, DistinctKeys;
    while todo != {}
      invariant todo <= records.Keys && DistinctKeys(list, DefinitionKey)
      invariant Index(list, DefinitionKey) == Live(records - todo)
      decreases |todo|
    {
      var key :| key in todo;
      assert RecordOk(records, key);
      TakeRecord(records, todo, key);
      if !records[key].deleted {
        ListOne(list, records[key].definition, DefinitionKey);
        list := list + [records[key].definition];
      }
      todo := todo - {key};
    }
    assert records - {} == records;
  }

  lemma TakeRecord(records: map<string, Record>, todo: set<string>, key: string)
    requires key in todo && todo <= records.Keys
    ensures key !in Live(records - todo)
    ensures Live(records - (todo - {key}))
            == if records[key].deleted then Live(records - todo) else Live(records - todo)[key := records[key].definition]
  {
  }

  ghost predicate KeyedGroups(gs: Groups) { forall k :: k in gs ==> gs[k].key == k }

  method GroupsFromMap(gs: Groups) returns (list: seq<Group>)
    requires KeyedGroups(gs)
    ensures DistinctKeys(list, GroupKey) && Index(list, GroupKey) == gs
  {
    list := ListOf(gs, GroupKey);
  }

  method ActiveDefinitions(records: map<string, Record>) returns (definitions: map<string, Definition>)
    ensures definitions == Live(records)
  {
    definitions := map[];
    var todo := records.Keys;
    while todo != {}
      invariant todo <= records.Keys && definitions == Live(records - todo)
      decreases |todo|
    {
      var key :| key in todo;
      TakeRecord(records, todo, key);
      if !records[key].deleted { definitions := definitions[key := records[key].definition]; }
      todo := todo - {key};
    }
    assert records - {} == records;
  }

  function Swap(g: Group): (f: Group -> Group) { (x: Group) => if x.key == g.key then g else x }

  /** Replaces the listed group of the same key. */
  method ReplaceGroup(list: seq<Group>, g: Group) returns (r: seq<Group>)
    ensures r == Each(Swap(g), list)
  {
    r := [];
    for i := 0 to |list|
      invariant |r| == i && forall j :: 0 <= j < i ==> r[j] == Swap(g)(list[j])
    {
      r := r + [if list[i].key == g.key then g else list[i]];
    }
  }

  lemma SwappedValues(m: Groups, g: Group)
    requires g.key in m && forall k :: k in m ==> m[k].key == k
    ensures MapValues(Swap(g), m) == m[g.key := g]
  {
  }

  lemma SwappedIndex(list: seq<Group>, g: Group)
    requires DistinctKeys(list, GroupKey) && g.key in Index(list, GroupKey)
    ensures DistinctKeys(Each(Swap(g), list), GroupKey)
    ensures Index(Each(Swap(g), list), GroupKey) == Index(list, GroupKey)[g.key := g]
  {
    assert forall i :: 0 <= i < |list| ==> GroupKey(Swap(g)(list[i])) == GroupKey(list[i]);
    hide Swap;
    IndexEach(list, GroupKey, Swap(g));
    EachDistinct(list, GroupKey, Swap(g));
    SwappedValues(Index(list, GroupKey), g);
  }

  /** The whole-graph check on maps: it accepts exactly what the specification accepts, for some visiting order. */
  method CheckGraph(env: Env, records: map<string, Record>, gs: Groups) returns (ok: bool, ghost order: seq<string>)
    requires RecordsKeyed(records) && KeyedGroups(gs)
    ensures Elements(order) == Live(records).Keys && (ok <==> GraphOk(env, records, gs, order))
  {
    var definitions := DefinitionsFromRecords(records);
    var groups := GroupsFromMap(gs);
    var snapshot;
    snapshot, order := NewSnapshotWithGroups(env, definitions, groups);
    ok := snapshot.Some?;
  }

  // ---- Loops over one tenant ----

  method FindGroupUse(st: TenantState, key: string) returns (used: bool)
    ensures used <==> GroupUsed(st, key)
  {
    var records, gs := st.records, st.groups;
    var todo := records.Keys;
    while todo != {}
      invariant todo <= records.Keys
      invariant forall k :: k in records && k !in todo ==> records[k].deleted || key !in records[k].definition.groups
      decreases |todo|
    {
      var k :| k in todo;
      if !records[k].deleted && key in records[k].definition.groups { return true; }
      todo := todo - {k};
    }
    todo := gs.Keys;
    while todo != {}
      invariant todo <= gs.Keys && forall k :: k in gs && k !in todo ==> gs[k].parent != key
      decreases |todo|
    {
      var k :| k in todo;
      if gs[k].parent == key { return true; }
      todo := todo - {k};
    }
    return false;
  }

  /** Drops every occurrence, keeping the order of the rest. */
  method FilterOut(groups: seq<string>, group: string) returns (kept: seq<string>, found: bool)
    ensures kept == Without(groups, group) && (found <==> group in groups)
  {
    kept, found := [], false;
    for i := 0 to |groups|
      invariant Without(groups, group) == kept + Without(groups[i..], group)
      invariant found <==> group in groups[..i]
    {
      if groups[i] == group { found := true; } else { kept := kept + [groups[i]]; }
    }
    assert groups[..|groups|] == groups;
  }

  method StageExists(st: TenantState, key: string) returns (pending: bool)
    ensures pending <==> HasStage(st, key)
  {
    var todo := st.staged.Keys;
    while todo != {}
      invariant todo <= st.staged.Keys && forall id :: id in st.staged && id !in todo ==> st.staged[id].definition.key != key
      decreases |todo|
    {
      var id :| id in todo;
      if st.staged[id].definition.key == key { return true; }
      todo := todo - {id};
    }
    return false;
  }

  method CollectDue(staged: map<nat, StagedChange>, now: int) returns (ids: seq<nat>)
    ensures ids == Ascending(NatLeq, DueSet(staged, now))
  {
    var list: seq<nat> := [];
    var todo := staged.Keys;
    ghost var due: set<nat> := {};
    while todo != {}
      invariant todo <= staged.Keys && due == (set id | id in staged && id !in todo && Due(staged[id], now))
      invariant multiset(list) == multiset(due)
      decreases |todo|
    {
      var id :| id in todo;
      if Due(staged[id], now) {
        assert multiset(due + {id}) == multiset(due) + multiset{id};
        list := list + [id];
        due := due + {id};
      }
      todo := todo - {id};
    }
    assert due == DueSet(staged, now);
    NatOrderIsTotal();
    AscendingUnique(NatLeq, Sort(NatLeq, list), due);
    ids := Sort(NatLeq, list);
  }

  lemma NatOrderIsTotal()
    ensures TotalOrder(NatLeq)
  {
  }

  /** The listed stages applied one by one to a copy of the records; the first problem stops it. */
  method ApplyToCopy(records: map<string, Record>, staged: map<nat, StagedChange>, ids: seq<nat>) returns (b: Batch)
    ensures b == ApplyEach(records, staged, ids)
  {
    var copy, results := records, [];
    for i := 0 to |ids|
      invariant ApplyEach(records, staged, ids[..i]) == Applied(copy, results)
    {
      var one := ApplyOne(copy, results, staged, ids[i]);
      ApplyNext(records, staged, ids, i);
      if one.Stopped? {
        ApplyStops(records, staged, ids, i + 1, one.error);
        return one;
      }
      copy, results := one.records, one.results;
    }
    assert ids[..|ids|] == ids;
    return Applied(copy, results);
  }

  lemma ApplyNext(records: map<string, Record>, staged: map<nat, StagedChange>, ids: seq<nat>, i: nat)
    requires i < |ids| && ApplyEach(records, staged, ids[..i]).Applied?
    ensures var b := ApplyEach(records, staged, ids[..i]);
            ApplyEach(records, staged, ids[..i + 1]) == ApplyOne(b.records, b.results, staged, ids[i])
  {
    assert ids[..i + 1][..i] == ids[..i];
  }

  lemma {:induction false} ApplyStops(records: map<string, Record>, staged: map<nat, StagedChange>, ids: seq<nat>, i: nat, e: Error)
    requires i <= |ids| && ApplyEach(records, staged, ids[..i]) == Stopped(e)
    ensures ApplyEach(records, staged, ids) == Stopped(e)
    decreases |ids| - i
  {
    if i < |ids| {
      assert ids[..i + 1][..i] == ids[..i];
      ApplyStops(records, staged, ids, i + 1, e);
    } else {
      assert ids[..i] == ids;
    }
  }

  method PlanDocument(st: TenantState, c: Catalog, dryRun: bool, policy: Policy, actor: string) returns (plan: Plan)
    ensures plan == PlanOf(st, c, dryRun, policy, actor)
  {
    hide PlanGroup, PlanFeature, NoPlan;
    plan := NoPlan(st, dryRun);
    for i := 0 to |c.groups|
      invariant plan == PlanGroups(NoPlan(st, dryRun), c.groups[..i], policy, actor)
    {
      assert c.groups[..i + 1][..i] == c.groups[..i];
      plan := PlanGroup(plan, c.groups[i], policy, actor);
    }
    assert c.groups[..|c.groups|] == c.groups;
    ghost var grouped := plan;
    for i := 0 to |c.definitions|
      invariant plan == PlanFeatures(grouped, c.definitions[..i], policy, actor)
    {
      assert c.definitions[..i + 1][..i] == c.definitions[..i];
      plan := PlanFeature(plan, c.definitions[i], policy, actor);
    }
    assert c.definitions[..|c.definitions|] == c.definitions;
  }

  /** Entry after entry, dropping the oldest beyond the limit each time. */
  method LogEach(limits: Limits, audit: seq<AuditEntry>, entries: seq<AuditEntry>) returns (log: seq<AuditEntry>)
    ensures log == LoggedAll(limits, audit, entries)
  {
    hide Logged;
    log := audit;
    for i := 0 to |entries|
      invariant log == LoggedAll(limits, audit, entries[..i])
    {
      LogNext(limits, audit, entries, i);
      log := Logged(limits, log, entries[i]);
    }
    assert entries[..|entries|] == entries;
  }

  lemma LogNext(limits: Limits, audit: seq<AuditEntry>, entries: seq<AuditEntry>, i: nat)
    requires i < |entries|
    ensures LoggedAll(limits, audit, entries[..i + 1]) == Logged(limits, LoggedAll(limits, audit, entries[..i]), entries[i])
  {
    assert entries[..i + 1][..i] == entries[..i];
  }

  // ---- Prospective group graphs ----

  method CheckAddedGroup(env: Env, records: map<string, Record>, gs: Groups, g: Group) returns (ok: bool)
    requires KeyedGroups(gs) && g.key !in gs
    ensures ok <==> GroupsAccepted(env, Live(records), gs[g.key := g])
  {
    hide GroupsAccepted, Live, DistinctKeys;
    var list := GroupsFromMap(gs);
    ListOne(list, g, GroupKey);
    var definitions := ActiveDefinitions(records);
    var cloned := ValidateGroups(env, definitions, list + [g]);
    ok := cloned.Some?;
  }

  method CheckReplacedGroup(env: Env, records: map<string, Record>, gs: Groups, g: Group) returns (ok: bool)
    requires KeyedGroups(gs) && g.key in gs
    ensures ok <==> GroupsAccepted(env, Live(records), gs[g.key := g])
  {
    hide GroupsAccepted, Live, DistinctKeys;
    var list := GroupsFromMap(gs);
    SwappedIndex(list, g);
    var prospective := ReplaceGroup(list, g);
    var definitions := ActiveDefinitions(records);
    var cloned := ValidateGroups(env, definitions, prospective);
    ok := cloned.Some?;
  }

  method CheckAttachment(env: Env, records: map<string, Record>, gs: Groups, key: string, d: Definition) returns (ok: bool)
    requires KeyedGroups(gs)
    ensures ok <==> GroupsAccepted(env, Live(records)[key := d], gs)
  {
    hide GroupsAccepted, Live, DistinctKeys;
    var definitions := ActiveDefinitions(records);
    var list := GroupsFromMap(gs);
    var cloned := ValidateGroups(env, definitions[key := d], list);
    ok := cloned.Some?;
  }

  // ---- The provider ----

  /** Every tenant's state; a tenant never heard of has the empty one. */
  type Tenants = imap<string, TenantState>

  ghost predicate Everyone(all: Tenants) { forall t: string :: t in all }

  ghost predicate AllInv(env: Env, all: Tenants) { forall t :: t in all ==> Inv(env, all[t]) }

  /** A call has the given effect on its own tenant, and none on any other tenant. */
  ghost predicate Did(env: Env, before: Tenants, after: Tenants, cancelled: bool, tenant: string, effect: Effect, r: Reply)
    requires Everyone(before)
  {
    var problem := InputProblem(env.limits, cancelled, tenant);
    if problem.Some? then r == BadInput(problem.value) && after == before
    else r == Answered(effect.answer) && after == before[tenant := effect.state]
  }

  /** Isolation and safety together: every tenant keeps its invariant, and no other tenant is touched. */
  lemma DidKeepsAll(env: Env, before: Tenants, after: Tenants, cancelled: bool, tenant: string, effect: Effect, r: Reply)
    requires Everyone(before) && AllInv(env, before) && Did(env, before, after, cancelled, tenant, effect, r)
    requires Inv(env, effect.state)
    ensures Everyone(after) && AllInv(env, after)
    ensures forall t :: t != tenant ==> after[t] == before[t]
  {
    hide Inv;
  }

  lemma ChangeKeepsAll(env: Env, before: Tenants, after: Tenants, tenant: string)
    requires Everyone(before) && Everyone(after) && AllInv(env, before) && Inv(env, after[tenant])
    requires after == before[tenant := after[tenant]]
    ensures AllInv(env, after)
  {
    hide Inv;
  }

  lemma OneTenantChanged(before: Tenants, after: Tenants, tenant: string, st: TenantState)
    requires Everyone(before) && Everyone(after) && after[tenant] == st && forall t :: t != tenant ==> after[t] == before[t]
    ensures after == before[tenant := st]
  {
  }

  lemma InvIsKeyed(env: Env, all: Tenants, tenant: string)
    requires Everyone(all) && AllInv(env, all)
    ensures RecordsKeyed(all[tenant].records) && KeyedGroups(all[tenant].groups)
  {
    assert Inv(env, all[tenant]);
  }

  // ---- Cleanup loops ----

  method Purge(records: map<string, Record>) returns (kept: map<string, Record>, purged: set<string>, count: nat)
    ensures purged == Tombstones(records) && kept == records - purged && count == |purged|
  {
    kept, purged, count := records, {}, 0;
    var todo := records.Keys;
    while todo != {}
      invariant todo <= records.Keys && purged == Tombstones(records) - todo && kept == records - purged && count == |purged|
      decreases |todo|
    {
      var key :| key in todo;
      if records[key].deleted {
        assert Tombstones(records) - (todo - {key}) == purged + {key};
        kept := kept - {key};
        purged := purged + {key};
        count := count + 1;
      }
      todo := todo - {key};
    }
  }

  /** What decoding and checking a document gives, for the order in which its features are visited. */
  ghost predicate Imported(env: Env, document: DocumentWire, c: Result<Catalog>, order: seq<string>) {
    match DecodedDocument(document)
    case Err(_) => c == DecodedDocument(document)
    case Ok(x) =>
      && Elements(order) == Index(x.definitions, DefinitionKey).Keys
      && c == if ListAccepted(env, x.definitions, x.groups, order) then Ok(x) else Err(Rejected)
  }

  lemma UnknownPolicyIs(
    env: Env, st: TenantState, document: DocumentWire, dryRun: bool, policy: Policy, actor: string, choice: Choice)
    requires policy.UnknownPolicy?
    ensures DocumentImported(env, st, document, dryRun, policy, actor, choice) == Refused(st, InvalidOption)
  {
  }

  lemma RefusedDocumentIs(
    env: Env, st: TenantState, document: DocumentWire, dryRun: bool, policy: Policy, actor: string, c: Result<Catalog>,
    order: seq<string>, choice: Choice)
    requires !policy.UnknownPolicy? && ImportOrders(st, document, dryRun, policy, actor, choice)
    requires Imported(env, document, c, order)
    ensures var used := Choice(order, choice.graphOrder);
            && ImportOrders(st, document, dryRun, policy, actor, used)
            && (c.Err? ==> DocumentImported(env, st, document, dryRun, policy, actor, used) == Refused(st, InvalidDocument(c.error)))
    ensures c.Ok? ==> DistinctKeys(c.value.groups, GroupKey)
  {
    hide DecodedDocument, GraphAccepted, CatalogImported, PlanOrder, DistinctKeys;
  }

  lemma AcceptedDocumentIs(
    env: Env, st: TenantState, document: DocumentWire, dryRun: bool, policy: Policy, actor: string, c: Catalog,
    documentOrder: seq<string>, order: seq<string>)
    requires !policy.UnknownPolicy? && Imported(env, document, Ok(c), documentOrder) && PlanOrder(st, c, dryRun, policy, actor, order)
    ensures var used := Choice(documentOrder, order);
            && ImportOrders(st, document, dryRun, policy, actor, used)
            && DocumentImported(env, st, document, dryRun, policy, actor, used)
               == CatalogImported(env, st, c, dryRun, policy, actor, order)
  {
    hide DecodedDocument, ListAccepted, CatalogImported, PlanOrder;
  }

  lemma DiscardOne(staged: map<nat, StagedChange>, gone: set<nat>, all: set<nat>, todo: set<nat>, id: nat)
    requires gone == all - todo && id in todo
    ensures all - (todo - {id}) == (if id in all then gone + {id} else gone)
    ensures staged - gone - {id} == staged - (gone + {id}) && |gone + {id}| == |gone| + 1
  {
  }

  method Discard(staged: map<nat, StagedChange>, purged: set<string>, before: int) returns (kept: map<nat, StagedChange>, count: nat)
    ensures kept == staged - DiscardedIds(staged, purged, before) && count == |DiscardedIds(staged, purged, before)|
  {
    kept, count := staged, 0;
    ghost var all := DiscardedIds(staged, purged, before);
    ghost var gone: set<nat> := {};
    var todo := staged.Keys;
    while todo != {}
      invariant todo <= staged.Keys && gone == all - todo
      invariant kept == staged - gone && count == |gone|
      decreases |todo|
    {
      var id :| id in todo;
      DiscardOne(staged, gone, all, todo, id);
      if Discarded(staged[id], purged, before) {
        kept := kept - {id};
        gone := gone + {id};
        count := count + 1;
      }
      todo := todo - {id};
    }
  }

  class MemoryProvider {
    const env: Env
    var tenants: map<string, map<string, Record>>
    var groups: map<string, Groups>
    var audit: map<string, seq<AuditEntry>>
    var staged: map<string, map<nat, StagedChange>>
    var nextStage: map<string, nat>

    constructor (env: Env)
      ensures Valid() && this.env == env && forall t :: State(t) == EMPTY
    {
      this.env := env;
      tenants, groups, audit, staged, nextStage := map[], map[], map[], map[], map[];
      new;
      EmptyIsInv(env);
    }

    function Records(tenant: string): (r: map<string, Record>) reads this { if tenant in tenants then tenants[tenant] else map[] }

    function GroupsOf(tenant: string): (r: Groups) reads this { if tenant in groups then groups[tenant] else map[] }

    function AuditOf(tenant: string): (r: seq<AuditEntry>) reads this { if tenant in audit then audit[tenant] else [] }

    function StagedOf(tenant: string): (r: map<nat, StagedChange>) reads this { if tenant in staged then staged[tenant] else map[] }

    function NextStageOf(tenant: string): (r: nat) reads this { if tenant in nextStage then nextStage[tenant] else 0 }

    /** What one tenant's entries of the five maps add up to; an absent entry reads as empty. */
    function State(tenant: string): (st: TenantState)
      reads this
    {
      TenantState(Records(tenant), GroupsOf(tenant), AuditOf(tenant), StagedOf(tenant), NextStageOf(tenant))
    }

    ghost function View(): (all: Tenants)
      reads this
      ensures Everyone(all) && forall t :: all[t] == State(t)
    {
      imap t: string :: State(t)
    }

    ghost predicate Valid()
      reads this
    {
      AllInv(env, View())
    }

    method AppendAudit(tenant: string, key: string, action: Action, actor: string, version: nat)
      modifies `audit
      ensures audit == old(audit)[tenant := Logged(env.limits, old(AuditOf(tenant)), AuditEntry(key, action, actor, version))]
    {
      hide Logged;
      audit := audit[tenant := Logged(env.limits, AuditOf(tenant), AuditEntry(key, action, actor, version))];
    }

    /** Writes one record and its audit entry. */
    method SaveRecord(tenant: string, key: string, record: Record, action: Action, actor: string)
      modifies `tenants, `audit
      ensures View() == old(View())[tenant := Stored(env.limits, old(State(tenant)), key, record, action, actor)]
    {
      tenants := tenants[tenant := Records(tenant)[key := record]];
      AppendAudit(tenant, key, action, actor, record.definition.version);
      assert State(tenant) == Stored(env.limits, old(State(tenant)), key, record, action, actor);
      assert forall t :: t != tenant ==> State(t) == old(State(t));
      OneTenantChanged(old(View()), View(), tenant, State(tenant));
    }

    method Create(cancelled: bool, tenant: string, definition: Definition, actor: string) returns (r: Reply)
      requires Valid()
      modifies this
      ensures Valid()
      ensures Did(env, old(View()), View(), cancelled, tenant, Created(env, old(State(tenant)), definition, actor), r)
    {
      hide Inv, Evolves, ValidDefinition, Stored;
      var problem := InputProblem(env.limits, cancelled, tenant);
      var features := Records(tenant);
      if problem.Some? {
        r := BadInput(problem.value);
      } else if !ValidDefinition(env, definition) {
        r := Answered(Denied(InvalidDefinition, None));
      } else if definition.key in features {
        r := Answered(Denied(AlreadyExists, None));
      } else if |features| >= env.limits.maxFeatures {
        r := Answered(Denied(TooManyFeatures, None));
      } else {
        var stored := definition.(version := 1);
        SaveRecord(tenant, definition.key, Record(stored, false), CreateAction, actor);
        r := Answered(Feature(stored));
      }
      CreateKeeps(env, old(State(tenant)), definition, actor);
      DidKeepsAll(env, old(View()), View(), cancelled, tenant, Created(env, old(State(tenant)), definition, actor), r);
    }

    method Update(cancelled: bool, tenant: string, definition: Definition, expected: nat, actor: string) returns (r: Reply)
      requires Valid()
      modifies this
      ensures Valid()
      ensures Did(env, old(View()), View(), cancelled, tenant,
                  Updated(env, old(State(tenant)), definition, expected, actor), r)
    {
      hide Inv, Evolves, ValidDefinition, Stored;
      var problem := InputProblem(env.limits, cancelled, tenant);
      var features := Records(tenant);
      if problem.Some? {
        r := BadInput(problem.value);
      } else if !ValidDefinition(env, definition) {
        r := Answered(Denied(InvalidDefinition, None));
      } else if definition.key !in features || features[definition.key].deleted {
        r := Answered(Denied(NotFound, None));
      } else if features[definition.key].definition.version != expected {
        r := Answered(Denied(VersionConflict, None));
      } else {
        var stored := definition.(version := features[definition.key].definition.version + 1);
        SaveRecord(tenant, definition.key, Record(stored, false), UpdateAction, actor);
        r := Answered(Feature(stored));
      }
      UpdateKeeps(env, old(State(tenant)), definition, expected, actor);
      DidKeepsAll(env, old(View()), View(), cancelled, tenant,
                  Updated(env, old(State(tenant)), definition, expected, actor), r);
    }

    method SetLifecycle(
      cancelled: bool, tenant: string, key: string, expected: nat, actor: string, lifecycle: Lifecycle, action: Action, deleted: bool)
      returns (r: Reply)
      requires Valid()
      modifies this
      ensures Valid()
      ensures Did(env, old(View()), View(), cancelled, tenant,
                  LifecycleSet(env, old(State(tenant)), key, expected, actor, lifecycle, action, deleted), r)
    {
      hide Inv, Evolves, Stored;
      var problem := InputProblem(env.limits, cancelled, tenant);
      var features := Records(tenant);
      if problem.Some? {
        r := BadInput(problem.value);
      } else if key !in features || features[key].deleted {
        r := Answered(Denied(NotFound, None));
      } else if features[key].definition.version != expected {
        r := Answered(Denied(VersionConflict, None));
      } else {
        var stored := features[key].definition.(lifecycle := lifecycle, version := features[key].definition.version + 1);
        SaveRecord(tenant, key, Record(stored, deleted), action, actor);
        r := Answered(Feature(stored));
      }
      LifecycleKeeps(env, old(State(tenant)), key, expected, actor, lifecycle, action, deleted);
      DidKeepsAll(env, old(View()), View(), cancelled, tenant,
                  LifecycleSet(env, old(State(tenant)), key, expected, actor, lifecycle, action, deleted), r);
    }

    method Activate(cancelled: bool, tenant: string, key: string, expected: nat, actor: string) returns (r: Reply)
      requires Valid()
      modifies this
      ensures Valid()
      ensures Did(env, old(View()), View(), cancelled, tenant,
                  LifecycleSet(env, old(State(tenant)), key, expected, actor, Active, ActivateAction, false), r)
    {
      hide Inv, Evolves, LifecycleSet, Did;
      r := SetLifecycle(cancelled, tenant, key, expected, actor, Active, ActivateAction, false);
    }

    method Deactivate(cancelled: bool, tenant: string, key: string, expected: nat, actor: string) returns (r: Reply)
      requires Valid()
      modifies this
      ensures Valid()
      ensures Did(env, old(View()), View(), cancelled, tenant,
                  LifecycleSet(env, old(State(tenant)), key, expected, actor, Inactivated, DeactivateAction, false), r)
    {
      hide Inv, Evolves, LifecycleSet, Did;
      r := SetLifecycle(cancelled, tenant, key, expected, actor, Inactivated, DeactivateAction, false);
    }

    method Delete(cancelled: bool, tenant: string, key: string, expected: nat, actor: string) returns (r: Reply)
      requires Valid()
      modifies this
      ensures Valid()
      ensures Did(env, old(View()), View(), cancelled, tenant,
                  LifecycleSet(env, old(State(tenant)), key, expected, actor, Archived, DeleteAction, true), r)
    {
      hide Inv, Evolves, LifecycleSet, Did;
      r := SetLifecycle(cancelled, tenant, key, expected, actor, Archived, DeleteAction, true);
    }

    method Restore(cancelled: bool, tenant: string, key: string, expected: nat, actor: string) returns (r: Reply)
      requires Valid()
      modifies this
      ensures Valid()
      ensures Did(env, old(View()), View(), cancelled, tenant, Restored(env, old(State(tenant)), key, expected, actor), r)
    {
      hide Inv, Evolves, Stored;
      var problem := InputProblem(env.limits, cancelled, tenant);
      var features := Records(tenant);
      if problem.Some? {
        r := BadInput(problem.value);
      } else if key !in features || !features[key].deleted {
        r := Answered(Denied(NotFound, None));
      } else if features[key].definition.version != expected {
        r := Answered(Denied(VersionConflict, None));
      } else {
        var stored := features[key].definition.(lifecycle := Inactivated, version := features[key].definition.version + 1);
        SaveRecord(tenant, key, Record(stored, false), RestoreAction, actor);
        r := Answered(Feature(stored));
      }
      RestoreKeeps(env, old(State(tenant)), key, expected, actor);
      DidKeepsAll(env, old(View()), View(), cancelled, tenant, Restored(env, old(State(tenant)), key, expected, actor), r);
    }

    /** Writes one group and its audit entry. */
    method SaveGroup(tenant: string, g: Group, action: Action, actor: string)
      modifies `groups, `audit
      ensures View() == old(View())[tenant := GroupStored(env.limits, old(State(tenant)), g, action, actor)]
    {
      groups := groups[tenant := GroupsOf(tenant)[g.key := g]];
      AppendAudit(tenant, g.key, action, actor, g.version);
      assert State(tenant) == GroupStored(env.limits, old(State(tenant)), g, action, actor);
      assert forall t :: t != tenant ==> State(t) == old(State(t));
      OneTenantChanged(old(View()), View(), tenant, State(tenant));
    }

    method EraseGroup(tenant: string, key: string, version: nat, actor: string)
      modifies `groups, `audit
      ensures View() == old(View())[tenant := GroupErased(env.limits, old(State(tenant)), key, version, actor)]
    {
      groups := groups[tenant := GroupsOf(tenant) - {key}];
      AppendAudit(tenant, key, GroupDeleteAction, actor, version);
      assert State(tenant) == GroupErased(env.limits, old(State(tenant)), key, version, actor);
      assert forall t :: t != tenant ==> State(t) == old(State(t));
      OneTenantChanged(old(View()), View(), tenant, State(tenant));
    }

    method CreateGroup(cancelled: bool, tenant: string, group: Group, actor: string) returns (r: Reply)
      requires Valid()
      modifies this
      ensures Valid()
      ensures Did(env, old(View()), View(), cancelled, tenant, GroupCreated(env, old(State(tenant)), group, actor), r)
    {
      hide Inv, Evolves, GroupsAccepted, GroupStored, Live, KeyedGroups, RecordsKeyed;
      InvIsKeyed(env, View(), tenant);
      var problem := InputProblem(env.limits, cancelled, tenant);
      var current := GroupsOf(tenant);
      if problem.Some? {
        r := BadInput(problem.value);
      } else if group.key in current {
        r := Answered(Denied(AlreadyExists, None));
      } else {
        var stored := group.(version := 1);
        var ok := CheckAddedGroup(env, Records(tenant), current, stored);
        if !ok {
          r := Answered(Denied(InvalidGraph, None));
        } else {
          SaveGroup(tenant, stored, GroupCreateAction, actor);
          r := Answered(GroupIs(stored));
        }
      }
      GroupCreateKeeps(env, old(State(tenant)), group, actor);
      DidKeepsAll(env, old(View()), View(), cancelled, tenant, GroupCreated(env, old(State(tenant)), group, actor), r);
    }

    method UpdateGroup(cancelled: bool, tenant: string, group: Group, expected: nat, actor: string) returns (r: Reply)
      requires Valid()
      modifies this
      ensures Valid()
      ensures Did(env, old(View()), View(), cancelled, tenant,
                  GroupUpdated(env, old(State(tenant)), group, expected, actor), r)
    {
      hide Inv, Evolves, GroupsAccepted, GroupStored, Live, KeyedGroups, RecordsKeyed;
      InvIsKeyed(env, View(), tenant);
      var problem := InputProblem(env.limits, cancelled, tenant);
      var current := GroupsOf(tenant);
      if problem.Some? {
        r := BadInput(problem.value);
      } else if group.key !in current {
        r := Answered(Denied(NotFound, None));
      } else if current[group.key].version != expected {
        r := Answered(Denied(VersionConflict, None));
      } else {
        var stored := group.(version := current[group.key].version + 1);
        var ok := CheckReplacedGroup(env, Records(tenant), current, stored);
        if !ok {
          r := Answered(Denied(InvalidGraph, None));
        } else {
          SaveGroup(tenant, stored, GroupUpdateAction, actor);
          r := Answered(GroupIs(stored));
        }
      }
      GroupUpdateKeeps(env, old(State(tenant)), group, expected, actor);
      DidKeepsAll(env, old(View()), View(), cancelled, tenant,
                  GroupUpdated(env, old(State(tenant)), group, expected, actor), r);
    }

    method DeleteGroup(cancelled: bool, tenant: string, key: string, expected: nat, actor: string) returns (r: Reply)
      requires Valid()
      modifies this
      ensures Valid()
      ensures Did(env, old(View()), View(), cancelled, tenant,
                  GroupDeleted(env, old(State(tenant)), key, expected, actor), r)
    {
      hide Inv, Evolves, GroupUsed, GroupErased;
      var problem := InputProblem(env.limits, cancelled, tenant);
      var current := GroupsOf(tenant);
      if problem.Some? {
        r := BadInput(problem.value);
      } else if key !in current {
        r := Answered(Denied(NotFound, None));
      } else if current[key].version != expected {
        r := Answered(Denied(VersionConflict, None));
      } else {
        var used := FindGroupUse(State(tenant), key);
        if used {
          r := Answered(Denied(GroupInUse, None));
        } else {
          EraseGroup(tenant, key, current[key].version + 1, actor);
          r := Answered(GroupIs(current[key].(version := current[key].version + 1)));
        }
      }
      GroupDeleteKeeps(env, old(State(tenant)), key, expected, actor);
      DidKeepsAll(env, old(View()), View(), cancelled, tenant,
                  GroupDeleted(env, old(State(tenant)), key, expected, actor), r);
    }

    method AssignGroup(cancelled: bool, tenant: string, key: string, group: string, expected: nat, actor: string) returns (r: Reply)
      requires Valid()
      modifies this
      ensures Valid()
      ensures Did(env, old(View()), View(), cancelled, tenant,
                  GroupAssigned(env, old(State(tenant)), key, group, expected, actor), r)
    {
      hide Inv, Evolves, GroupsAccepted, Stored, Live, KeyedGroups, RecordsKeyed;
      InvIsKeyed(env, View(), tenant);
      var problem := InputProblem(env.limits, cancelled, tenant);
      var features, current := Records(tenant), GroupsOf(tenant);
      if problem.Some? {
        r := BadInput(problem.value);
      } else if group !in current {
        r := Answered(Denied(NotFound, None));
      } else if key !in features || features[key].deleted {
        r := Answered(Denied(NotFound, None));
      } else if features[key].definition.version != expected {
        r := Answered(Denied(VersionConflict, None));
      } else if group in features[key].definition.groups {
        r := Answered(Feature(features[key].definition));
      } else {
        var updated := features[key].definition.(groups := features[key].definition.groups + [group]);
        var ok := CheckAttachment(env, features, current, key, updated);
        if !ok {
          r := Answered(Denied(InvalidGraph, None));
        } else {
          updated := updated.(version := updated.version + 1);
          SaveRecord(tenant, key, Record(updated, features[key].deleted), AssignAction, actor);
          r := Answered(Feature(updated));
        }
      }
      AssignKeeps(env, old(State(tenant)), key, group, expected, actor);
      DidKeepsAll(env, old(View()), View(), cancelled, tenant,
                  GroupAssigned(env, old(State(tenant)), key, group, expected, actor), r);
    }

    method RemoveGroup(cancelled: bool, tenant: string, key: string, group: string, expected: nat, actor: string) returns (r: Reply)
      requires Valid()
      modifies this
      ensures Valid()
      ensures Did(env, old(View()), View(), cancelled, tenant,
                  GroupRemoved(env, old(State(tenant)), key, group, expected, actor), r)
    {
      hide Inv, Evolves, Stored, Without;
      var problem := InputProblem(env.limits, cancelled, tenant);
      var features := Records(tenant);
      if problem.Some? {
        r := BadInput(problem.value);
      } else if key !in features || features[key].deleted {
        r := Answered(Denied(NotFound, None));
      } else if features[key].definition.version != expected {
        r := Answered(Denied(VersionConflict, None));
      } else {
        var kept, found := FilterOut(features[key].definition.groups, group);
        if !found {
          r := Answered(Denied(NotFound, None));
        } else {
          var updated := features[key].definition.(groups := kept, version := features[key].definition.version + 1);
          SaveRecord(tenant, key, Record(updated, features[key].deleted), RemoveAction, actor);
          r := Answered(Feature(updated));
        }
      }
      RemoveKeeps(env, old(State(tenant)), key, group, expected, actor);
      DidKeepsAll(env, old(View()), View(), cancelled, tenant,
                  GroupRemoved(env, old(State(tenant)), key, group, expected, actor), r);
    }

    /** Keeps a staged change under the next identity, with its audit entry. */
    method SaveStage(tenant: string, change: StagedChange)
      modifies `staged, `nextStage, `audit
      ensures View() == old(View())[tenant := StageStored(env.limits, old(State(tenant)), change)]
    {
      hide Logged;
      nextStage := nextStage[tenant := change.id];
      staged := staged[tenant := StagedOf(tenant)[change.id := change]];
      AppendAudit(tenant, change.definition.key, StageAction, change.actor, change.expected);
      assert State(tenant) == StageStored(env.limits, old(State(tenant)), change);
      assert forall t :: t != tenant ==> State(t) == old(State(t));
      OneTenantChanged(old(View()), View(), tenant, State(tenant));
    }

    method StageUpdate(cancelled: bool, tenant: string, definition: Definition, expected: nat, applyAt: int, actor: string)
      returns (r: Reply)
      requires Valid()
      modifies this
      ensures Valid()
      ensures Did(env, old(View()), View(), cancelled, tenant,
                  StagedUpdate(env, old(State(tenant)), definition, expected, applyAt, actor), r)
    {
      hide Inv, Evolves, ValidDefinition, StageStored, HasStage;
      var problem := InputProblem(env.limits, cancelled, tenant);
      var features := Records(tenant);
      var pending := StageExists(State(tenant), definition.key);
      if problem.Some? {
        r := BadInput(problem.value);
      } else if !ValidDefinition(env, definition) {
        r := Answered(Denied(InvalidDefinition, None));
      } else if definition.key !in features || features[definition.key].deleted {
        r := Answered(Denied(NotFound, None));
      } else if features[definition.key].definition.version != expected {
        r := Answered(Denied(VersionConflict, None));
      } else if |StagedOf(tenant)| >= env.limits.maxStagedChanges {
        r := Answered(Denied(TooManyStages, None));
      } else if pending {
        r := Answered(Denied(AlreadyExists, None));
      } else {
        var change := StagedChange(NextStageOf(tenant) + 1, definition, expected, applyAt, actor);
        SaveStage(tenant, change);
        r := Answered(Stage(change));
      }
      StageKeeps(env, old(State(tenant)), definition, expected, applyAt, actor);
      DidKeepsAll(env, old(View()), View(), cancelled, tenant,
                  StagedUpdate(env, old(State(tenant)), definition, expected, applyAt, actor), r);
    }

    /** Replaces the records, then drops each applied stage and writes its audit entry. */
    method CommitStages(tenant: string, records: map<string, Record>, ids: seq<nat>, results: seq<Definition>, actor: string)
      modifies `tenants, `staged, `audit
      ensures View() == old(View())[tenant := StagesCommitted(env.limits, old(State(tenant)), records, ids, results, actor)]
    {
      hide LoggedAll, ApplyEntry;
      tenants := tenants[tenant := records];
      DropStaged(tenant, ids);
      AppendAll(tenant, Each(ApplyEntry(actor), results));
      assert State(tenant) == StagesCommitted(env.limits, old(State(tenant)), records, ids, results, actor);
      assert forall t :: t != tenant ==> State(t) == old(State(t));
      OneTenantChanged(old(View()), View(), tenant, State(tenant));
    }

    method DropStaged(tenant: string, ids: seq<nat>)
      modifies `staged
      ensures staged == old(staged)[tenant := old(StagedOf(tenant)) - (set id | id in ids)]
    {
      var kept := StagedOf(tenant);
      for i := 0 to |ids|
        invariant kept == StagedOf(tenant) - (set id | id in ids[..i])
      {
        assert ids[..i + 1] == ids[..i] + [ids[i]];
        kept := kept - {ids[i]};
      }
      assert ids[..|ids|] == ids;
      staged := staged[tenant := kept];
    }

    method AppendAll(tenant: string, entries: seq<AuditEntry>)
      modifies `audit
      ensures audit == old(audit)[tenant := LoggedAll(env.limits, old(AuditOf(tenant)), entries)]
    {
      var log := LogEach(env.limits, AuditOf(tenant), entries);
      audit := audit[tenant := log];
    }

    method ApplyStages(tenant: string, ids: seq<nat>, actor: string) returns (a: Answer, ghost order: seq<string>)
      requires Valid()
      modifies this
      ensures Valid() && BatchOrder(old(State(tenant)), ids, order)
      ensures Effect(View()[tenant], a) == StagesApplied(env, old(State(tenant)), ids, actor, order)
      ensures View() == old(View())[tenant := View()[tenant]]
    {
      hide Inv, Evolves, GraphOk, StagesCommitted, ApplyEach, RecordsKeyed, KeyedGroups, Live;
      InvIsKeyed(env, View(), tenant);
      var batch := ApplyToCopy(Records(tenant), StagedOf(tenant), ids);
      order := [];
      if batch.Stopped? {
        a := Denied(batch.error, None);
      } else {
        ApplyEachNewer(Records(tenant), StagedOf(tenant), ids);
        var ok;
        ok, order := CheckGraph(env, batch.records, GroupsOf(tenant));
        if !ok {
          a := Denied(InvalidGraph, None);
        } else {
          CommitStages(tenant, batch.records, ids, batch.results, actor);
          a := Features(batch.results);
        }
      }
      ApplyKeeps(env, old(State(tenant)), ids, actor, order);
      ChangeKeepsAll(env, old(View()), View(), tenant);
    }

    method ApplyStage(cancelled: bool, tenant: string, id: nat, actor: string) returns (r: Reply, ghost order: seq<string>)
      requires Valid()
      modifies this
      ensures Valid() && BatchOrder(old(State(tenant)), [id], order)
      ensures Did(env, old(View()), View(), cancelled, tenant, StageApplied(env, old(State(tenant)), id, actor, order), r)
    {
      hide Inv, Evolves, StagesApplied, BatchOrder;
      var problem := InputProblem(env.limits, cancelled, tenant);
      order := SomeBatchOrder(State(tenant), [id]);
      if problem.Some? {
        r := BadInput(problem.value);
      } else {
        var a;
        a, order := ApplyStages(tenant, [id], actor);
        r := Answered(if a.Features? && |a.definitions| == 1 then Feature(a.definitions[0]) else a);
      }
      OneStageKeeps(env, old(State(tenant)), id, actor, order);
      DidKeepsAll(env, old(View()), View(), cancelled, tenant, StageApplied(env, old(State(tenant)), id, actor, order), r);
    }

    method ApplyScheduled(cancelled: bool, tenant: string, now: int, actor: string) returns (r: Reply, ghost order: seq<string>)
      requires Valid()
      modifies this
      ensures Valid() && BatchOrder(old(State(tenant)), DueIds(old(State(tenant)), now), order)
      ensures Did(env, old(View()), View(), cancelled, tenant,
                  ScheduledApplied(env, old(State(tenant)), now, actor, order), r)
    {
      hide Inv, Evolves, StagesApplied, DueSet, BatchOrder;
      var problem := InputProblem(env.limits, cancelled, tenant);
      order := SomeBatchOrder(State(tenant), DueIds(State(tenant), now));
      if problem.Some? {
        r := BadInput(problem.value);
      } else if now == 0 {
        r := Answered(Denied(TimeRequired, None));
      } else {
        var ids := CollectDue(StagedOf(tenant), now);
        if ids == [] {
          r := Answered(Features([]));
        } else {
          var a;
          a, order := ApplyStages(tenant, ids, actor);
          r := Answered(a);
        }
      }
      ScheduledKeeps(env, old(State(tenant)), now, actor, order);
      DidKeepsAll(env, old(View()), View(), cancelled, tenant,
                  ScheduledApplied(env, old(State(tenant)), now, actor, order), r);
    }

    method Sweep(tenant: string, records: map<string, Record>, kept: map<nat, StagedChange>, excess: nat)
      requires excess <= |AuditOf(tenant)|
      modifies `tenants, `staged, `audit
      ensures View()
              == old(View())[tenant := old(State(tenant)).(records := records, staged := kept, audit := old(AuditOf(tenant))[excess..])]
    {
      tenants := tenants[tenant := records];
      staged := staged[tenant := kept];
      audit := audit[tenant := AuditOf(tenant)[excess..]];
      assert State(tenant) == old(State(tenant)).(records := records, staged := kept, audit := old(AuditOf(tenant))[excess..]);
      assert forall t :: t != tenant ==> State(t) == old(State(t));
      OneTenantChanged(old(View()), View(), tenant, State(tenant));
    }

    method Cleanup(cancelled: bool, tenant: string, purgeDeleted: bool, discardBefore: int, keepAudit: int) returns (r: Reply)
      requires Valid()
      modifies this
      ensures Valid()
      ensures Did(env, old(View()), View(), cancelled, tenant,
                  CleanedUp(env, old(State(tenant)), purgeDeleted, discardBefore, keepAudit), r)
    {
      hide Inv, Evolves, Tombstones, DiscardedIds;
      var problem := InputProblem(env.limits, cancelled, tenant);
      if problem.Some? {
        r := BadInput(problem.value);
      } else if keepAudit < 0 || keepAudit > env.limits.maxAuditEntries {
        r := Answered(Denied(InvalidOption, None));
      } else {
        var records, purged, deleted: nat := Records(tenant), {}, 0;
        assert records - {} == records;
        if purgeDeleted { records, purged, deleted := Purge(records); }
        var kept, discarded := Discard(StagedOf(tenant), purged, discardBefore);
        var excess := if keepAudit > 0 && |AuditOf(tenant)| > keepAudit then |AuditOf(tenant)| - keepAudit else 0;
        Sweep(tenant, records, kept, excess);
        r := Answered(Cleaned(CleanupReport(deleted, discarded, excess)));
      }
      CleanupKeeps(env, old(State(tenant)), purgeDeleted, discardBefore, keepAudit);
      DidKeepsAll(env, old(View()), View(), cancelled, tenant,
                  CleanedUp(env, old(State(tenant)), purgeDeleted, discardBefore, keepAudit), r);
    }

    method CommitPlan(tenant: string, plan: Plan)
      modifies `tenants, `groups, `audit
      ensures View() == old(View())[tenant := PlanCommitted(env.limits, old(State(tenant)), plan)]
    {
      hide LoggedAll;
      tenants := tenants[tenant := plan.records];
      groups := groups[tenant := plan.groups];
      AppendAll(tenant, plan.audits);
      assert State(tenant) == PlanCommitted(env.limits, old(State(tenant)), plan);
      assert forall t :: t != tenant ==> State(t) == old(State(t));
      OneTenantChanged(old(View()), View(), tenant, State(tenant));
    }

    method ImportCatalog(tenant: string, c: Catalog, dryRun: bool, policy: Policy, actor: string)
      returns (a: Answer, ghost order: seq<string>)
      requires Valid() && DistinctKeys(c.groups, GroupKey)
      modifies this
      ensures Valid() && PlanOrder(old(State(tenant)), c, dryRun, policy, actor, order)
      ensures Effect(View()[tenant], a) == CatalogImported(env, old(State(tenant)), c, dryRun, policy, actor, order)
      ensures View() == old(View())[tenant := View()[tenant]]
    {
      hide Inv, Evolves, GraphOk, PlanCommitted, PlanOf, RecordsKeyed, KeyedGroups, DistinctKeys, Live;
      InvIsKeyed(env, View(), tenant);
      PlanIsKeyed(State(tenant), c, dryRun, policy, actor);
      var plan := PlanDocument(State(tenant), c, dryRun, policy, actor);
      order := SomeOrder(Live(plan.records).Keys);
      if policy !in {Skip, Replace} && plan.report.conflicts != [] && !dryRun {
        a := Denied(ImportConflict, Some(plan.report));
      } else {
        var ok;
        ok, order := CheckGraph(env, plan.records, plan.groups);
        if !ok {
          a := Denied(InvalidGraph, Some(plan.report));
        } else if dryRun {
          a := Planned(plan.report);
        } else {
          CommitPlan(tenant, plan);
          a := Planned(plan.report);
        }
      }
      ImportKeeps(env, old(State(tenant)), c, dryRun, policy, actor, order);
      ChangeKeepsAll(env, old(View()), View(), tenant);
    }

    /** The call behind its tenant and cancellation guards. */
    method ImportGuarded(tenant: string, document: DocumentWire, dryRun: bool, policy: Policy, actor: string)
      returns (a: Answer, ghost choice: Choice)
      requires Valid()
      modifies this
      ensures ImportOrders(old(State(tenant)), document, dryRun, policy, actor, choice)
      ensures Effect(View()[tenant], a) == DocumentImported(env, old(State(tenant)), document, dryRun, policy, actor, choice)
      ensures View() == old(View())[tenant := View()[tenant]]
    {
      hide Inv, Evolves, CatalogImported, DocumentImported, ImportOrders, DecodedDocument, ListAccepted, DistinctKeys, PlanOrder;
      choice := SomeImportOrders(State(tenant), document, dryRun, policy, actor);
      if policy.UnknownPolicy? {
        UnknownPolicyIs(env, State(tenant), document, dryRun, policy, actor, choice);
        a := Denied(InvalidOption, None);
      } else {
        var c;
        ghost var documentOrder, order;
        c, documentOrder := Import(env, document);
        RefusedDocumentIs(env, State(tenant), document, dryRun, policy, actor, c, documentOrder, choice);
        choice := Choice(documentOrder, choice.graphOrder);
        if c.Err? {
          a := Denied(InvalidDocument(c.error), None);
        } else {
          a, order := ImportCatalog(tenant, c.value, dryRun, policy, actor);
          AcceptedDocumentIs(env, old(State(tenant)), document, dryRun, policy, actor, c.value, documentOrder, order);
          choice := Choice(documentOrder, order);
        }
      }
    }

    method ImportDocument(cancelled: bool, tenant: string, document: DocumentWire, dryRun: bool, policy: Policy, actor: string)
      returns (r: Reply, ghost choice: Choice)
      requires Valid()
      modifies this
      ensures Valid() && ImportOrders(old(State(tenant)), document, dryRun, policy, actor, choice)
      ensures Did(env, old(View()), View(), cancelled, tenant,
                  DocumentImported(env, old(State(tenant)), document, dryRun, policy, actor, choice), r)
    {
      hide Inv, Evolves, DocumentImported, ImportOrders;
      var problem := InputProblem(env.limits, cancelled, tenant);
      choice := SomeImportOrders(State(tenant), document, dryRun, policy, actor);
      if problem.Some? {
        r := BadInput(problem.value);
      } else {
        var a;
        a, choice := ImportGuarded(tenant, document, dryRun, policy, actor);
        r := Answered(a);
      }
      DocumentKeeps(env, old(State(tenant)), document, dryRun, policy, actor, choice);
      DidKeepsAll(env, old(View()), View(), cancelled, tenant,
                  DocumentImported(env, old(State(tenant)), document, dryRun, policy, actor, choice), r);
    }

    /** The tenant's live graph as a snapshot bound to the tenant; accepted snapshots are sound. */
    method Snapshot(cancelled: bool, tenant: string) returns (r: Option<Evaluator.Snapshot>, ghost order: seq<string>)
      requires Valid()
      ensures Elements(order) == Live(Records(tenant)).Keys
      ensures r.Some? <==> InputProblem(env.limits, cancelled, tenant) == None
                           && GraphOk(env, Records(tenant), GroupsOf(tenant), order)
      ensures r.Some? ==> r.value == Evaluator.Snapshot(Live(Records(tenant)), GroupsOf(tenant), tenant) && Sound(env, r.value)
    {
      hide Inv, Evolves, RecordsKeyed, KeyedGroups, GraphAccepted, Sound, Live;
      InvIsKeyed(env, View(), tenant);
      var problem := InputProblem(env.limits, cancelled, tenant);
      var ok;
      ok, order := CheckGraph(env, Records(tenant), GroupsOf(tenant));
      if problem.Some? || !ok {
        r := None;
      } else {
        var definitions := ActiveDefinitions(Records(tenant));
        AcceptedIsSound(env, definitions, GroupsOf(tenant), tenant, order);
        r := Some(Evaluator.Snapshot(definitions, GroupsOf(tenant), tenant));
      }
    }
  }

  lemma {:induction false} PlanGroupsKeyed(plan: Plan, gs: seq<Group>, policy: Policy, actor: string)
    requires KeyedGroups(plan.groups)
    ensures KeyedGroups(PlanGroups(plan, gs, policy, actor).groups)
  {
    if gs != [] { PlanGroupsKeyed(plan, gs[..|gs| - 1], policy, actor); }
  }

  lemma PlanIsKeyed(st: TenantState, c: Catalog, dryRun: bool, policy: Policy, actor: string)
    requires RecordsKeyed(st.records) && KeyedGroups(st.groups)
    ensures RecordsKeyed(PlanOf(st, c, dryRun, policy, actor).records) && KeyedGroups(PlanOf(st, c, dryRun, policy, actor).groups)
  {
    hide RecordsKeyed, KeyedGroups;
    var p := PlanGroups(NoPlan(st, dryRun), c.groups, policy, actor);
    PlanGroupsKeyed(NoPlan(st, dryRun), c.groups, policy, actor);
    PlanGroupsKeepRecords(NoPlan(st, dryRun), c.groups, policy, actor);
    PlanFeaturesNewer(p, c.definitions, policy, actor);
    PlanFeaturesKeepGroups(p, c.definitions, policy, actor);
  }
}
