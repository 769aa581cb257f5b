/** What every management call keeps, and how records and stages may evolve. */
module TenantInvariant {
  import opened Keyed
  import opened Model
  import opened GroupForest
  import opened Evaluator
  import opened Codec
  import opened Portable
  import opened Tenant

  ghost predicate RecordOk(records: map<string, Record>, key: string)
    requires key in records
  {
    records[key].definition.key == key && records[key].definition.version >= 1
  }

  ghost predicate RecordsKeyed(records: map<string, Record>) {
    forall k :: k in records ==> RecordOk(records, k)
  }

  /** A stage's feature still has a record, live or deleted, at the expected version or later. */
  ghost predicate StageOk(records: map<string, Record>, nextStage: nat, id: nat, change: StagedChange) {
    && change.id == id && 1 <= id <= nextStage
    && change.definition.key in records && change.expected <= records[change.definition.key].definition.version
  }

  ghost predicate StagesOk(records: map<string, Record>, nextStage: nat, staged: map<nat, StagedChange>) {
    forall id :: id in staged ==> StageOk(records, nextStage, id, staged[id])
  }

  ghost predicate OnePerKey(staged: map<nat, StagedChange>) {
    forall i, j :: i in staged && j in staged && staged[i].definition.key == staged[j].definition.key ==> i == j
  }

  ghost predicate Inv(env: Env, st: TenantState) {
    && RecordsKeyed(st.records)
    && StagesOk(st.records, st.nextStage, st.staged) && OnePerKey(st.staged) && |st.staged| <= env.limits.maxStagedChanges
    && |st.audit| <= env.limits.maxAuditEntries
    && GroupsWellFormed(env, st.groups)
  }

  /** A record present before and after is either untouched or strictly newer. */
  ghost predicate Newer(before: map<string, Record>, after: map<string, Record>) {
    forall k :: k in before && k in after ==>
      after[k] == before[k] || after[k].definition.version > before[k].definition.version
  }

  /** A stage afterwards was there before, unchanged, or carries an identity never used so far. */
  ghost predicate Inherited(before: TenantState, after: TenantState) {
    forall id :: id in after.staged ==>
      (id in before.staged && after.staged[id] == before.staged[id]) || id > before.nextStage
  }

  ghost predicate Evolves(before: TenantState, after: TenantState) {
    Newer(before.records, after.records) && Inherited(before, after) && before.nextStage <= after.nextStage
  }

  lemma EmptyIsInv(env: Env)
    ensures Inv(env, EMPTY)
  {
  }

  // ---- Storing one record ----

  lemma StoreKeeps(env: Env, st: TenantState, key: string, record: Record, action: Action, actor: string)
    requires Inv(env, st) && record.definition.key == key && record.definition.version >= 1
    requires key in st.records ==> record.definition.version > st.records[key].definition.version
    ensures Inv(env, Stored(env.limits, st, key, record, action, actor))
    ensures Evolves(st, Stored(env.limits, st, key, record, action, actor))
  {
    var after := Stored(env.limits, st, key, record, action, actor);
    forall id | id in after.staged ensures StageOk(after.records, after.nextStage, id, after.staged[id]) {
      assert StageOk(st.records, st.nextStage, id, st.staged[id]);
    }
    forall k | k in after.records ensures RecordOk(after.records, k) {
      if k != key { assert RecordOk(st.records, k); }
    }
  }

  lemma CreateKeeps(env: Env, st: TenantState, d: Definition, actor: string)
    requires Inv(env, st)
    ensures Inv(env, Created(env, st, d, actor).state) && Evolves(st, Created(env, st, d, actor).state)
  {
    hide Inv, Evolves, Stored, ValidDefinition;
    Unchanged(st);
    if !Created(env, st, d, actor).answer.Denied? {
      StoreKeeps(env, st, d.key, Record(d.(version := 1), false), CreateAction, actor);
    }
  }

  lemma Unchanged(st: TenantState)
    ensures Evolves(st, st)
  {
  }

  lemma UpdateKeeps(env: Env, st: TenantState, d: Definition, expected: nat, actor: string)
    requires Inv(env, st)
    ensures Inv(env, Updated(env, st, d, expected, actor).state) && Evolves(st, Updated(env, st, d, expected, actor).state)
  {
    hide Inv, Evolves, Stored, ValidDefinition;
    Unchanged(st);
    if !Updated(env, st, d, expected, actor).answer.Denied? {
      StoreKeeps(env, st, d.key, Record(d.(version := expected + 1), false), UpdateAction, actor);
    }
  }

  lemma KeyOf(env: Env, st: TenantState, key: string)
    requires Inv(env, st) && key in st.records
    ensures st.records[key].definition.key == key
  {
    assert RecordOk(st.records, key);
  }

  lemma LifecycleKeeps(
    env: Env, st: TenantState, key: string, expected: nat, actor: string, lifecycle: Lifecycle, action: Action, deleted: bool)
    requires Inv(env, st)
    ensures var e := LifecycleSet(env, st, key, expected, actor, lifecycle, action, deleted);
            Inv(env, e.state) && Evolves(st, e.state)
  {
    hide Inv, Evolves, Stored;
    Unchanged(st);
    if !LifecycleSet(env, st, key, expected, actor, lifecycle, action, deleted).answer.Denied? {
      KeyOf(env, st, key);
      var stored := st.records[key].definition.(lifecycle := lifecycle, version := expected + 1);
      StoreKeeps(env, st, key, Record(stored, deleted), action, actor);
    }
  }

  lemma RestoreKeeps(env: Env, st: TenantState, key: string, expected: nat, actor: string)
    requires Inv(env, st)
    ensures var e := Restored(env, st, key, expected, actor); Inv(env, e.state) && Evolves(st, e.state)
  {
    hide Inv, Evolves, Stored;
    Unchanged(st);
    if !Restored(env, st, key, expected, actor).answer.Denied? {
      KeyOf(env, st, key);
      var stored := st.records[key].definition.(lifecycle := Inactivated, version := expected + 1);
      StoreKeeps(env, st, key, Record(stored, false), RestoreAction, actor);
    }
  }

  lemma AssignKeeps(env: Env, st: TenantState, key: string, group: string, expected: nat, actor: string)
    requires Inv(env, st)
    ensures var e := GroupAssigned(env, st, key, group, expected, actor); Inv(env, e.state) && Evolves(st, e.state)
  {
    hide Inv, Evolves, Stored, GroupsAccepted;
    Unchanged(st);
    if IsLive(st, key) && st.records[key].definition.version == expected {
      KeyOf(env, st, key);
      var current := st.records[key].definition;
      var stored := current.(groups := current.groups + [group]).(version := expected + 1);
      StoreKeeps(env, st, key, Record(stored, false), AssignAction, actor);
    }
  }

  lemma RemoveKeeps(env: Env, st: TenantState, key: string, group: string, expected: nat, actor: string)
    requires Inv(env, st)
    ensures var e := GroupRemoved(env, st, key, group, expected, actor); Inv(env, e.state) && Evolves(st, e.state)
  {
    hide Inv, Evolves, Stored;
    Unchanged(st);
    if IsLive(st, key) && st.records[key].definition.version == expected {
      KeyOf(env, st, key);
      var current := st.records[key].definition;
      var stored := current.(groups := Without(current.groups, group), version := expected + 1);
      StoreKeeps(env, st, key, Record(stored, false), RemoveAction, actor);
    }
  }

  // ---- Groups ----

  lemma RegroupKeeps(env: Env, st: TenantState, gs: Groups, audit: seq<AuditEntry>)
    requires Inv(env, st) && GroupsWellFormed(env, gs) && |audit| <= env.limits.maxAuditEntries
    ensures Inv(env, st.(groups := gs, audit := audit)) && Evolves(st, st.(groups := gs, audit := audit))
  {
    hide GroupsWellFormed;
  }

  lemma GroupCreateKeeps(env: Env, st: TenantState, g: Group, actor: string)
    requires Inv(env, st)
    ensures var e := GroupCreated(env, st, g, actor); Inv(env, e.state) && Evolves(st, e.state)
  {
    hide Inv, Evolves, GroupsWellFormed, AllAttached;
    Unchanged(st);
    if !GroupCreated(env, st, g, actor).answer.Denied? {
      var after := GroupCreated(env, st, g, actor).state;
      RegroupKeeps(env, st, after.groups, after.audit);
    }
  }

  lemma GroupUpdateKeeps(env: Env, st: TenantState, g: Group, expected: nat, actor: string)
    requires Inv(env, st)
    ensures var e := GroupUpdated(env, st, g, expected, actor); Inv(env, e.state) && Evolves(st, e.state)
  {
    hide Inv, Evolves, GroupsWellFormed, AllAttached;
    Unchanged(st);
    if !GroupUpdated(env, st, g, expected, actor).answer.Denied? {
      var after := GroupUpdated(env, st, g, expected, actor).state;
      RegroupKeeps(env, st, after.groups, after.audit);
    }
  }

  lemma GroupDeleteKeeps(env: Env, st: TenantState, key: string, expected: nat, actor: string)
    requires Inv(env, st)
    ensures var e := GroupDeleted(env, st, key, expected, actor); Inv(env, e.state) && Evolves(st, e.state)
  {
    hide Evolves, GroupsWellFormed, StagesOk, OnePerKey, RecordsKeyed;
    Unchanged(st);
    if !GroupDeleted(env, st, key, expected, actor).answer.Denied? {
      DeletionKeepsForest(env, st.groups, key);
      var after := GroupDeleted(env, st, key, expected, actor).state;
      RegroupKeeps(env, st, after.groups, after.audit);
    }
  }

  // ---- Stages ----

  lemma AddStage(records: map<string, Record>, next: nat, staged: map<nat, StagedChange>, change: StagedChange)
    requires StagesOk(records, next, staged) && OnePerKey(staged)
    requires forall id :: id in staged ==> staged[id].definition.key != change.definition.key
    requires StageOk(records, next + 1, next + 1, change)
    ensures next + 1 !in staged
    ensures StagesOk(records, next + 1, staged[next + 1 := change]) && OnePerKey(staged[next + 1 := change])
  {
    assert forall id :: id in staged ==> StageOk(records, next, id, staged[id]);
  }

  lemma StageKeeps(env: Env, st: TenantState, d: Definition, expected: nat, applyAt: int, actor: string)
    requires Inv(env, st)
    ensures var e := StagedUpdate(env, st, d, expected, applyAt, actor); Inv(env, e.state) && Evolves(st, e.state)
  {
    hide GroupsWellFormed, ValidDefinition, StagesOk, OnePerKey, RecordsKeyed;
    var e := StagedUpdate(env, st, d, expected, applyAt, actor);
    if e.answer.Stage? {
      AddStage(st.records, st.nextStage, st.staged, e.answer.change);
      MapGrows(st.staged, st.nextStage + 1, e.answer.change);
    }
  }

  /** Stages may leave freely. */
  lemma DropStages(records: map<string, Record>, next: nat, staged: map<nat, StagedChange>, gone: set<nat>)
    requires StagesOk(records, next, staged) && OnePerKey(staged)
    ensures StagesOk(records, next, staged - gone) && OnePerKey(staged - gone) && |staged - gone| <= |staged|
  {
    var left := staged - gone;
    assert left.Keys == staged.Keys - gone && |left| == |left.Keys| && |staged| == |staged.Keys|;
    SubsetSize(left.Keys, staged.Keys);
  }

  lemma {:induction false} SubsetSize<T>(a: set<T>, b: set<T>)
    requires a <= b
    ensures |a| <= |b|
  {
    assert b == a + (b - a);
  }

  lemma NewerRecordsKeepStages(
    before: map<string, Record>, after: map<string, Record>, next: nat, staged: map<nat, StagedChange>)
    requires StagesOk(before, next, staged) && Newer(before, after)
    requires forall id :: id in staged ==> staged[id].definition.key in after
    ensures StagesOk(after, next, staged)
  {
    forall id | id in staged ensures StageOk(after, next, id, staged[id]) {
      assert StageOk(before, next, id, staged[id]);
    }
  }

  // ---- Applying stages ----

  lemma NewerCompose(a: map<string, Record>, b: map<string, Record>, c: map<string, Record>)
    requires Newer(a, b) && Newer(b, c) && a.Keys <= b.Keys
    ensures Newer(a, c)
  {
  }

  lemma ApplyOneNewer(records: map<string, Record>, results: seq<Definition>, staged: map<nat, StagedChange>, id: nat)
    requires RecordsKeyed(records) && ApplyOne(records, results, staged, id).Applied?
    ensures var r := ApplyOne(records, results, staged, id).records;
            r.Keys == records.Keys && RecordsKeyed(r) && Newer(records, r)
  {
    var r := ApplyOne(records, results, staged, id).records;
    forall k | k in r ensures RecordOk(r, k) {
      if k != staged[id].definition.key { assert RecordOk(records, k); }
    }
  }

  lemma {:induction false} ApplyEachNewer(records: map<string, Record>, staged: map<nat, StagedChange>, ids: seq<nat>)
    requires RecordsKeyed(records) && ApplyEach(records, staged, ids).Applied?
    ensures var r := ApplyEach(records, staged, ids).records;
            r.Keys == records.Keys && RecordsKeyed(r) && Newer(records, r)
  {
    if ids != [] {
      var front := ids[..|ids| - 1];
      ApplyEachNewer(records, staged, front);
      var b := ApplyEach(records, staged, front);
      ApplyOneNewer(b.records, b.results, staged, ids[|ids| - 1]);
      NewerCompose(records, b.records, ApplyEach(records, staged, ids).records);
    }
  }

  lemma ApplyKeeps(env: Env, st: TenantState, ids: seq<nat>, actor: string, order: seq<string>)
    requires Inv(env, st)
    ensures var e := StagesApplied(env, st, ids, actor, order); Inv(env, e.state) && Evolves(st, e.state)
  {
    hide GroupsWellFormed, GraphOk, StagesOk, OnePerKey, RecordsKeyed, ApplyEach, Newer;
    Unchanged(st);
    var e := StagesApplied(env, st, ids, actor, order);
    if e.answer.Features? {
      ApplyEachNewer(st.records, st.staged, ids);
      StagesHaveRecords(st.records, st.nextStage, st.staged);
      NewerRecordsKeepStages(st.records, e.state.records, st.nextStage, st.staged);
      DropStages(e.state.records, st.nextStage, st.staged, set id | id in ids);
    }
  }

  lemma StagesHaveRecords(records: map<string, Record>, next: nat, staged: map<nat, StagedChange>)
    requires StagesOk(records, next, staged)
    ensures forall id :: id in staged ==> staged[id].definition.key in records
  {
    assert forall id :: id in staged ==> StageOk(records, next, id, staged[id]);
  }

  // ---- Cleanup ----

  lemma PurgeKeepsStages(records: map<string, Record>, next: nat, staged: map<nat, StagedChange>, purged: set<string>, gone: set<nat>)
    requires StagesOk(records, next, staged) && forall id :: id in staged && id !in gone ==> staged[id].definition.key !in purged
    ensures StagesOk(records - purged, next, staged - gone)
  {
    forall id | id in staged - gone ensures StageOk(records - purged, next, id, (staged - gone)[id]) {
      assert StageOk(records, next, id, staged[id]);
    }
  }

  lemma PurgeKeepsRecords(records: map<string, Record>, purged: set<string>)
    requires RecordsKeyed(records)
    ensures RecordsKeyed(records - purged) && Newer(records, records - purged)
  {
    forall k | k in records - purged ensures RecordOk(records - purged, k) { assert RecordOk(records, k); }
  }

  lemma CleanupKeeps(env: Env, st: TenantState, purgeDeleted: bool, discardBefore: int, keepAudit: int)
    requires Inv(env, st)
    ensures var e := CleanedUp(env, st, purgeDeleted, discardBefore, keepAudit); Inv(env, e.state) && Evolves(st, e.state)
  {
    hide GroupsWellFormed, StagesOk, OnePerKey, RecordsKeyed, Newer;
    Unchanged(st);
    var purged := if purgeDeleted then Tombstones(st.records) else {};
    var gone := DiscardedIds(st.staged, purged, discardBefore);
    PurgeKeepsRecords(st.records, purged);
    PurgeKeepsStages(st.records, st.nextStage, st.staged, purged, gone);
    DropStages(st.records, st.nextStage, st.staged, gone);
  }

  lemma PurgeKeepsLive(records: map<string, Record>, purged: set<string>)
    requires purged <= Tombstones(records)
    ensures Live(records - purged) == Live(records)
  {
  }

  /**
   * A cleanup within the retention limit purges the tombstones, if asked, and nothing else, discards the stages of
   * purged features and those scheduled before the limit, keeps the newest audit entries, and reports what it removed.
   */
  lemma CleanupConserves(env: Env, st: TenantState, purgeDeleted: bool, discardBefore: int, keepAudit: int)
    ensures var e := CleanedUp(env, st, purgeDeleted, discardBefore, keepAudit);
            && (e.answer.Cleaned? <==> 0 <= keepAudit <= env.limits.maxAuditEntries) && (e.answer.Denied? ==> e.state == st)
            && (e.answer.Cleaned? ==>
              && e.state.groups == st.groups && e.state.nextStage == st.nextStage
              && (forall k :: k in e.state.records <==> k in st.records && !(purgeDeleted && st.records[k].deleted))
              && (forall k :: k in e.state.records ==> e.state.records[k] == st.records[k])
              && (forall id :: id in e.state.staged <==>
                    && id in st.staged
                    && (st.staged[id].definition.key in st.records ==> st.staged[id].definition.key in e.state.records)
                    && !(discardBefore != 0 && st.staged[id].applyAt != 0 && st.staged[id].applyAt < discardBefore))
              && (forall id :: id in e.state.staged ==> e.state.staged[id] == st.staged[id])
              && (keepAudit > 0 ==> |e.state.audit| == if |st.audit| <= keepAudit then |st.audit| else keepAudit)
              && (keepAudit == 0 ==> e.state.audit == st.audit)
              && Live(e.state.records) == Live(st.records)
              && |e.state.records| + e.answer.cleanup.deletedFeatures == |st.records|
              && |e.state.staged| + e.answer.cleanup.discardedStages == |st.staged|
              && |e.state.audit| + e.answer.cleanup.discardedAudit == |st.audit|
              && e.state.audit == st.audit[e.answer.cleanup.discardedAudit..])
  {
    var purged := if purgeDeleted then Tombstones(st.records) else {};
    var gone := DiscardedIds(st.staged, purged, discardBefore);
    Removed(st.records, purged);
    Removed(st.staged, gone);
    PurgeKeepsLive(st.records, purged);
    hide Live, Tombstones, DiscardedIds;
  }

  lemma Removed<K, V>(m: map<K, V>, gone: set<K>)
    requires gone <= m.Keys
    ensures |m - gone| + |gone| == |m|
  {
    var left := m - gone;
    assert left.Keys == m.Keys - gone && |left| == |left.Keys| && |m| == |m.Keys|;
    assert m.Keys == left.Keys + gone;
  }

  // ---- Import ----

  lemma PlanFeatureNewer(plan: Plan, d: Definition, policy: Policy, actor: string)
    requires RecordsKeyed(plan.records)
    ensures var r := PlanFeature(plan, d, policy, actor).records;
            plan.records.Keys <= r.Keys && RecordsKeyed(r) && Newer(plan.records, r)
  {
    var r := PlanFeature(plan, d, policy, actor).records;
    var version := if d.key in plan.records then plan.records[d.key].definition.version + 1 else 1;
    assert r == plan.records || r == plan.records[d.key := Record(d.(version := version), false)];
    PutNewer(plan.records, d, version);
  }

  ghost predicate NewRecord(records: map<string, Record>, d: Definition, version: nat) {
    version >= 1 && (d.key in records ==> version > records[d.key].definition.version)
  }

  lemma PutNewer(records: map<string, Record>, d: Definition, version: nat)
    requires RecordsKeyed(records) && NewRecord(records, d, version)
    ensures var r := records[d.key := Record(d.(version := version), false)];
            records.Keys <= r.Keys && RecordsKeyed(r) && Newer(records, r)
  {
    var r := records[d.key := Record(d.(version := version), false)];
    forall k | k in r ensures RecordOk(r, k) {
      if k in records { assert RecordOk(records, k); }
    }
  }

  lemma {:induction false} PlanFeaturesNewer(plan: Plan, ds: seq<Definition>, policy: Policy, actor: string)
    requires RecordsKeyed(plan.records)
    ensures var r := PlanFeatures(plan, ds, policy, actor).records;
            plan.records.Keys <= r.Keys && RecordsKeyed(r) && Newer(plan.records, r)
  {
    if ds != [] {
      var front := ds[..|ds| - 1];
      PlanFeaturesNewer(plan, front, policy, actor);
      var p := PlanFeatures(plan, front, policy, actor);
      PlanFeatureNewer(p, ds[|ds| - 1], policy, actor);
      NewerCompose(plan.records, p.records, PlanFeatures(plan, ds, policy, actor).records);
    }
  }

  lemma {:induction false} PlanGroupsKeepRecords(plan: Plan, gs: seq<Group>, policy: Policy, actor: string)
    ensures PlanGroups(plan, gs, policy, actor).records == plan.records
  {
    if gs != [] { PlanGroupsKeepRecords(plan, gs[..|gs| - 1], policy, actor); }
  }

  lemma {:induction false} PlanFeaturesKeepGroups(plan: Plan, ds: seq<Definition>, policy: Policy, actor: string)
    ensures PlanFeatures(plan, ds, policy, actor).groups == plan.groups
  {
    if ds != [] { PlanFeaturesKeepGroups(plan, ds[..|ds| - 1], policy, actor); }
  }

  lemma ReplaceKeeps(env: Env, st: TenantState, records: map<string, Record>, gs: Groups, audit: seq<AuditEntry>)
    requires Inv(env, st) && RecordsKeyed(records) && Newer(st.records, records) && st.records.Keys <= records.Keys
    requires GroupsWellFormed(env, gs) && |audit| <= env.limits.maxAuditEntries
    ensures Inv(env, st.(records := records, groups := gs, audit := audit))
    ensures Evolves(st, st.(records := records, groups := gs, audit := audit))
  {
    hide GroupsWellFormed, StagesOk, OnePerKey, RecordsKeyed, Newer;
    StagesHaveRecords(st.records, st.nextStage, st.staged);
    NewerRecordsKeepStages(st.records, records, st.nextStage, st.staged);
  }

  lemma ImportKeeps(env: Env, st: TenantState, c: Catalog, dryRun: bool, policy: Policy, actor: string, order: seq<string>)
    requires Inv(env, st)
    ensures var e := CatalogImported(env, st, c, dryRun, policy, actor, order); Inv(env, e.state) && Evolves(st, e.state)
  {
    Unchanged(st);
    var plan := PlanOf(st, c, dryRun, policy, actor);
    if GraphOk(env, plan.records, plan.groups, order) {
      PlanGroupsKeepRecords(NoPlan(st, dryRun), c.groups, policy, actor);
      PlanFeaturesNewer(PlanGroups(NoPlan(st, dryRun), c.groups, policy, actor), c.definitions, policy, actor);
      assert GroupsWellFormed(env, plan.groups);
      hide *;
      ReplaceKeeps(env, st, plan.records, plan.groups, LoggedAll(env.limits, st.audit, plan.audits));
    }
    hide Inv, Evolves, PlanOf, GraphOk;
  }

  lemma OneStageKeeps(env: Env, st: TenantState, id: nat, actor: string, order: seq<string>)
    requires Inv(env, st)
    ensures var e := StageApplied(env, st, id, actor, order); Inv(env, e.state) && Evolves(st, e.state)
  {
    hide Inv, Evolves, StagesApplied;
    ApplyKeeps(env, st, [id], actor, order);
  }

  lemma ScheduledKeeps(env: Env, st: TenantState, now: int, actor: string, order: seq<string>)
    requires Inv(env, st)
    ensures var e := ScheduledApplied(env, st, now, actor, order); Inv(env, e.state) && Evolves(st, e.state)
  {
    hide Inv, Evolves, StagesApplied, DueIds;
    Unchanged(st);
    ApplyKeeps(env, st, DueIds(st, now), actor, order);
  }

  lemma DocumentKeeps(
    env: Env, st: TenantState, document: DocumentWire, dryRun: bool, policy: Policy, actor: string, choice: Choice)
    requires Inv(env, st)
    ensures var e := DocumentImported(env, st, document, dryRun, policy, actor, choice); Inv(env, e.state) && Evolves(st, e.state)
  {
    hide Inv, Evolves, CatalogImported, ListAccepted, DecodedDocument;
    Unchanged(st);
    if DecodedDocument(document).Ok? {
      ImportKeeps(env, st, DecodedDocument(document).value, dryRun, policy, actor, choice.graphOrder);
    }
  }

  /** Every call keeps the invariant and lets records and stages only move forward. */
  lemma PerformKeeps(env: Env, st: TenantState, op: Op, choice: Choice)
    requires Inv(env, st)
    ensures Inv(env, Perform(env, st, op, choice).state) && Evolves(st, Perform(env, st, op, choice).state)
  {
    hide Inv, Evolves, Created, Updated, LifecycleSet, Restored, GroupCreated, GroupUpdated, GroupDeleted, GroupAssigned,
         GroupRemoved, StagedUpdate, StageApplied, ScheduledApplied, CleanedUp, DocumentImported;
    Unchanged(st);
    match op
    case Create(d, actor) => CreateKeeps(env, st, d, actor);
    case Update(d, expected, actor) => UpdateKeeps(env, st, d, expected, actor);
    case Activate(key, expected, actor) => LifecycleKeeps(env, st, key, expected, actor, Active, ActivateAction, false);
    case Deactivate(key, expected, actor) => LifecycleKeeps(env, st, key, expected, actor, Inactivated, DeactivateAction, false);
    case Delete(key, expected, actor) => LifecycleKeeps(env, st, key, expected, actor, Archived, DeleteAction, true);
    case Restore(key, expected, actor) => RestoreKeeps(env, st, key, expected, actor);
    case CreateGroup(g, actor) => GroupCreateKeeps(env, st, g, actor);
    case UpdateGroup(g, expected, actor) => GroupUpdateKeeps(env, st, g, expected, actor);
    case DeleteGroup(key, expected, actor) => GroupDeleteKeeps(env, st, key, expected, actor);
    case AssignGroup(key, group, expected, actor) => AssignKeeps(env, st, key, group, expected, actor);
    case RemoveGroup(key, group, expected, actor) => RemoveKeeps(env, st, key, group, expected, actor);
    case StageUpdate(d, expected, applyAt, actor) => StageKeeps(env, st, d, expected, applyAt, actor);
    case ApplyStage(id, actor) => OneStageKeeps(env, st, id, actor, choice.graphOrder);
    case ApplyScheduled(now, actor) => ScheduledKeeps(env, st, now, actor, choice.graphOrder);
    case Cleanup(purgeDeleted, discardBefore, keepAudit) => CleanupKeeps(env, st, purgeDeleted, discardBefore, keepAudit);
    case ImportDocument(document, dryRun, policy, actor) => DocumentKeeps(env, st, document, dryRun, policy, actor, choice);
  }
}
