/** One tenant's management state and what each management call does to it. */
module Tenant {
  import opened Ordering
  import opened Keyed
  import opened Model
  import opened GroupForest
  import opened DependencyGraph
  import opened Evaluator
  import opened Codec
  import opened Portable

  datatype Record = Record(definition: Definition, deleted: bool)

  datatype Action =
    | CreateAction | UpdateAction | ActivateAction | DeactivateAction | DeleteAction | RestoreAction
    | GroupCreateAction | GroupUpdateAction | GroupDeleteAction | AssignAction | RemoveAction
    | StageAction | ApplyAction | ImportCreateAction | ImportUpdateAction

  datatype AuditEntry = AuditEntry(key: string, action: Action, actor: string, version: nat)

  /** A zero `applyAt` waits for an explicit application. */
  datatype StagedChange = StagedChange(id: nat, definition: Definition, expected: nat, applyAt: int, actor: string)

  datatype TenantState = TenantState(
    records: map<string, Record>, groups: Groups, audit: seq<AuditEntry>, staged: map<nat, StagedChange>, nextStage: nat)

  const EMPTY := TenantState(map[], map[], [], map[], 0)

  datatype Conflict = FeatureConflict(key: string, current: nat, incoming: nat) | GroupConflict(key: string, current: nat, incoming: nat)

  datatype ImportReport = ImportReport(
    dryRun: bool, createdFeatures: nat, updatedFeatures: nat, createdGroups: nat, updatedGroups: nat, skipped: nat,
    conflicts: seq<Conflict>)

  datatype CleanupReport = CleanupReport(deletedFeatures: nat, discardedStages: nat, discardedAudit: nat)

  datatype Error =
    | InvalidDefinition | AlreadyExists | TooManyFeatures | TooManyStages | NotFound | VersionConflict | InvalidGraph
    | GroupInUse | TimeRequired | InvalidOption | InvalidDocument(cause: CodecError) | ImportConflict

  datatype Answer =
    | Feature(definition: Definition)
    | Features(definitions: seq<Definition>)
    | GroupIs(group: Group)
    | Stage(change: StagedChange)
    | Cleaned(cleanup: CleanupReport)
    | Planned(plan: ImportReport)
    | Denied(error: Error, report: Option<ImportReport>)

  datatype Policy = Unset | Fail | Skip | Replace | UnknownPolicy(name: string)

  datatype Op =
    | Create(definition: Definition, actor: string)
    | Update(definition: Definition, expected: nat, actor: string)
    | Activate(key: string, expected: nat, actor: string)
    | Deactivate(key: string, expected: nat, actor: string)
    | Delete(key: string, expected: nat, actor: string)
    | Restore(key: string, expected: nat, actor: string)
    | CreateGroup(group: Group, actor: string)
    | UpdateGroup(group: Group, expected: nat, actor: string)
    | DeleteGroup(groupKey: string, expected: nat, actor: string)
    | AssignGroup(key: string, groupKey: string, expected: nat, actor: string)
    | RemoveGroup(key: string, groupKey: string, expected: nat, actor: string)
    | StageUpdate(definition: Definition, expected: nat, applyAt: int, actor: string)
    | ApplyStage(id: nat, actor: string)
    | ApplyScheduled(now: int, actor: string)
    | Cleanup(purgeDeleted: bool, discardBefore: int, keepAudit: int)
    | ImportDocument(document: DocumentWire, dryRun: bool, policy: Policy, actor: string)

  /** The orders in which the dependency check happens to visit features, for the document and for the whole graph. */
  datatype Choice = Choice(documentOrder: seq<string>, graphOrder: seq<string>)

  datatype Effect = Effect(state: TenantState, answer: Answer)

  function Refused(st: TenantState, e: Error): (r: Effect) { Effect(st, Denied(e, None)) }

  // ---- Pieces ----

  function Live(records: map<string, Record>): (r: map<string, Definition>) {
    map k | k in records && !records[k].deleted :: records[k].definition
  }

  predicate IsLive(st: TenantState, key: string) { key in st.records && !st.records[key].deleted }

  /** The newest entries, never more than the limit. */
  function Logged(limits: Limits, audit: seq<AuditEntry>, entry: AuditEntry): (r: seq<AuditEntry>)
    ensures |r| <= limits.maxAuditEntries && |r| <= |audit| + 1
    ensures |r| == |audit| + 1 || |r| == limits.maxAuditEntries
    ensures r == (audit + [entry])[|audit| + 1 - |r|..]
  {
    var entries := audit + [entry];
    if |entries| > limits.maxAuditEntries then entries[|entries| - limits.maxAuditEntries..] else entries
  }

  function Stored(limits: Limits, st: TenantState, key: string, record: Record, action: Action, actor: string): (r: TenantState) {
    st.(records := st.records[key := record],
        audit := Logged(limits, st.audit, AuditEntry(key, action, actor, record.definition.version)))
  }

  ghost predicate GraphOk(env: Env, records: map<string, Record>, gs: Groups, order: seq<string>) {
    Elements(order) == Live(records).Keys && GraphAccepted(env, Live(records), gs, order)
  }

  // ---- Features ----

  ghost function Created(env: Env, st: TenantState, d: Definition, actor: string): (r: Effect) {
    if !ValidDefinition(env, d) then Refused(st, InvalidDefinition)
    else if d.key in st.records then Refused(st, AlreadyExists)
    else if |st.records| >= env.limits.maxFeatures then Refused(st, TooManyFeatures)
    else
      var stored := d.(version := 1);
      Effect(Stored(env.limits, st, d.key, Record(stored, false), CreateAction, actor), Feature(stored))
  }

  ghost function Updated(env: Env, st: TenantState, d: Definition, expected: nat, actor: string): (r: Effect) {
    if !ValidDefinition(env, d) then Refused(st, InvalidDefinition)
    else if !IsLive(st, d.key) then Refused(st, NotFound)
    else if st.records[d.key].definition.version != expected then Refused(st, VersionConflict)
    else
      var stored := d.(version := expected + 1);
      Effect(Stored(env.limits, st, d.key, Record(stored, false), UpdateAction, actor), Feature(stored))
  }

  function LifecycleSet(
    env: Env, st: TenantState, key: string, expected: nat, actor: string, lifecycle: Lifecycle, action: Action, deleted: bool)
    : (r: Effect)
  {
    if !IsLive(st, key) then Refused(st, NotFound)
    else if st.records[key].definition.version != expected then Refused(st, VersionConflict)
    else
      var stored := st.records[key].definition.(lifecycle := lifecycle, version := expected + 1);
      Effect(Stored(env.limits, st, key, Record(stored, deleted), action, actor), Feature(stored))
  }

  function Restored(env: Env, st: TenantState, key: string, expected: nat, actor: string): (r: Effect) {
    if key !in st.records || !st.records[key].deleted then Refused(st, NotFound)
    else if st.records[key].definition.version != expected then Refused(st, VersionConflict)
    else
      var stored := st.records[key].definition.(lifecycle := Inactivated, version := expected + 1);
      Effect(Stored(env.limits, st, key, Record(stored, false), RestoreAction, actor), Feature(stored))
  }

  // ---- Groups ----

  ghost function GroupCreated(env: Env, st: TenantState, g: Group, actor: string): (r: Effect) {
    if g.key in st.groups then Refused(st, AlreadyExists)
    else
      var stored := g.(version := 1);
      if !GroupsAccepted(env, Live(st.records), st.groups[g.key := stored]) then Refused(st, InvalidGraph)
      else Effect(GroupStored(env.limits, st, stored, GroupCreateAction, actor), GroupIs(stored))
  }

  function GroupStored(limits: Limits, st: TenantState, g: Group, action: Action, actor: string): (r: TenantState) {
    st.(groups := st.groups[g.key := g], audit := Logged(limits, st.audit, AuditEntry(g.key, action, actor, g.version)))
  }

  ghost function GroupUpdated(env: Env, st: TenantState, g: Group, expected: nat, actor: string): (r: Effect) {
    if g.key !in st.groups then Refused(st, NotFound)
    else if st.groups[g.key].version != expected then Refused(st, VersionConflict)
    else
      var stored := g.(version := expected + 1);
      if !GroupsAccepted(env, Live(st.records), st.groups[g.key := stored]) then Refused(st, InvalidGraph)
      else Effect(GroupStored(env.limits, st, stored, GroupUpdateAction, actor), GroupIs(stored))
  }

  predicate GroupUsed(st: TenantState, key: string) {
    || (exists k :: k in st.records && !st.records[k].deleted && key in st.records[k].definition.groups)
    || (exists k :: k in st.groups && st.groups[k].parent == key)
  }

  function GroupErased(limits: Limits, st: TenantState, key: string, version: nat, actor: string): (r: TenantState) {
    st.(groups := st.groups - {key}, audit := Logged(limits, st.audit, AuditEntry(key, GroupDeleteAction, actor, version)))
  }

  function GroupDeleted(env: Env, st: TenantState, key: string, expected: nat, actor: string): (r: Effect) {
    if key !in st.groups then Refused(st, NotFound)
    else if st.groups[key].version != expected then Refused(st, VersionConflict)
    else if GroupUsed(st, key) then Refused(st, GroupInUse)
    else
      Effect(GroupErased(env.limits, st, key, expected + 1, actor), GroupIs(st.groups[key].(version := expected + 1)))
  }

  ghost function GroupAssigned(env: Env, st: TenantState, key: string, group: string, expected: nat, actor: string): (r: Effect) {
    if group !in st.groups || !IsLive(st, key) then Refused(st, NotFound)
    else if st.records[key].definition.version != expected then Refused(st, VersionConflict)
    else
      var current := st.records[key].definition;
      if group in current.groups then Effect(st, Feature(current))
      else
        var attached := current.(groups := current.groups + [group]);
        if !GroupsAccepted(env, Live(st.records)[key := attached], st.groups) then Refused(st, InvalidGraph)
        else
          var stored := attached.(version := expected + 1);
          Effect(Stored(env.limits, st, key, Record(stored, false), AssignAction, actor), Feature(stored))
  }

  function Without(groups: seq<string>, group: string): (r: seq<string>)
    ensures group !in r && |r| <= |groups|
    ensures |r| == |groups| <==> group !in groups
    ensures forall x :: x != group ==> (x in r <==> x in groups)
  {
    if groups == [] then []
    else if groups[0] == group then Without(groups[1..], group)
    else [groups[0]] + Without(groups[1..], group)
  }

  function GroupRemoved(env: Env, st: TenantState, key: string, group: string, expected: nat, actor: string): (r: Effect) {
    if !IsLive(st, key) then Refused(st, NotFound)
    else if st.records[key].definition.version != expected then Refused(st, VersionConflict)
    else
      var current := st.records[key].definition;
      if group !in current.groups then Refused(st, NotFound)
      else
        var stored := current.(groups := Without(current.groups, group), version := expected + 1);
        Effect(Stored(env.limits, st, key, Record(stored, false), RemoveAction, actor), Feature(stored))
  }

  // ---- Stages ----

  ghost predicate HasStage(st: TenantState, key: string) { exists id :: id in st.staged && st.staged[id].definition.key == key }

  ghost function StagedUpdate(env: Env, st: TenantState, d: Definition, expected: nat, applyAt: int, actor: string): (r: Effect) {
    if !ValidDefinition(env, d) then Refused(st, InvalidDefinition)
    else if !IsLive(st, d.key) then Refused(st, NotFound)
    else if st.records[d.key].definition.version != expected then Refused(st, VersionConflict)
    else if |st.staged| >= env.limits.maxStagedChanges then Refused(st, TooManyStages)
    else if HasStage(st, d.key) then Refused(st, AlreadyExists)
    else
      var id := st.nextStage + 1;
      var change := StagedChange(id, d, expected, applyAt, actor);
      Effect(StageStored(env.limits, st, change), Stage(change))
  }

  function StageStored(limits: Limits, st: TenantState, change: StagedChange): (r: TenantState) {
    st.(staged := st.staged[change.id := change], nextStage := change.id,
        audit := Logged(limits, st.audit, AuditEntry(change.definition.key, StageAction, change.actor, change.expected)))
  }

  datatype Batch = Applied(records: map<string, Record>, results: seq<Definition>) | Stopped(error: Error)

  /** The changes of the listed stages, one after the other, on a copy of the records. */
  function ApplyEach(records: map<string, Record>, staged: map<nat, StagedChange>, ids: seq<nat>): (r: Batch)
    ensures r.Applied? ==> |r.results| == |ids|
  {
    if ids == [] then Applied(records, [])
    else
      match ApplyEach(records, staged, ids[..|ids| - 1])
      case Stopped(e) => Stopped(e)
      case Applied(before, results) => ApplyOne(before, results, staged, ids[|ids| - 1])
  }

  function ApplyOne(records: map<string, Record>, results: seq<Definition>, staged: map<nat, StagedChange>, id: nat): (r: Batch) {
    if id !in staged then Stopped(NotFound)
    else
      var change := staged[id];
      var key := change.definition.key;
      if key !in records || records[key].deleted then Stopped(NotFound)
      else if records[key].definition.version != change.expected then Stopped(VersionConflict)
      else
        var updated := change.definition.(version := change.expected + 1);
        Applied(records[key := Record(updated, false)], results + [updated])
  }

  function LoggedAll(limits: Limits, audit: seq<AuditEntry>, entries: seq<AuditEntry>): (r: seq<AuditEntry>)
    ensures |audit| <= limits.maxAuditEntries ==> |r| <= limits.maxAuditEntries
  {
    if entries == [] then audit
    else Logged(limits, LoggedAll(limits, audit, entries[..|entries| - 1]), entries[|entries| - 1])
  }

  function ApplyEntry(actor: string): (f: Definition -> AuditEntry) {
    (d: Definition) => AuditEntry(d.key, ApplyAction, actor, d.version)
  }

  ghost function StagesApplied(env: Env, st: TenantState, ids: seq<nat>, actor: string, order: seq<string>): (r: Effect) {
    match ApplyEach(st.records, st.staged, ids)
    case Stopped(e) => Refused(st, e)
    case Applied(records, results) =>
      if !GraphOk(env, records, st.groups, order) then Refused(st, InvalidGraph)
      else
        Effect(StagesCommitted(env.limits, st, records, ids, results, actor), Features(results))
  }

  function StagesCommitted(
    limits: Limits, st: TenantState, records: map<string, Record>, ids: seq<nat>, results: seq<Definition>, actor: string)
    : (r: TenantState)
  {
    st.(records := records, staged := st.staged - (set id | id in ids),
        audit := LoggedAll(limits, st.audit, Each(ApplyEntry(actor), results)))
  }

  ghost function StageApplied(env: Env, st: TenantState, id: nat, actor: string, order: seq<string>): (r: Effect) {
    var e := StagesApplied(env, st, [id], actor, order);
    if e.answer.Features? && |e.answer.definitions| == 1 then Effect(e.state, Feature(e.answer.definitions[0])) else e
  }

  predicate Due(change: StagedChange, now: int) { change.applyAt != 0 && change.applyAt <= now }

  function DueSet(staged: map<nat, StagedChange>, now: int): (ids: set<nat>) { set id | id in staged && Due(staged[id], now) }

  ghost function DueIds(st: TenantState, now: int): (ids: seq<nat>) {
    Ascending(NatLeq, DueSet(st.staged, now))
  }

  ghost function ScheduledApplied(env: Env, st: TenantState, now: int, actor: string, order: seq<string>): (r: Effect) {
    if now == 0 then Refused(st, TimeRequired)
    else if DueIds(st, now) == [] then Effect(st, Features([]))
    else StagesApplied(env, st, DueIds(st, now), actor, order)
  }

  // ---- Cleanup ----

  function Tombstones(records: map<string, Record>): (r: set<string>) { set k | k in records && records[k].deleted }

  predicate Discarded(change: StagedChange, purged: set<string>, discardBefore: int) {
    change.definition.key in purged || (discardBefore != 0 && change.applyAt != 0 && change.applyAt < discardBefore)
  }

  function DiscardedIds(staged: map<nat, StagedChange>, purged: set<string>, discardBefore: int): (r: set<nat>) {
    set id | id in staged && Discarded(staged[id], purged, discardBefore)
  }

  function CleanedUp(env: Env, st: TenantState, purgeDeleted: bool, discardBefore: int, keepAudit: int): (r: Effect) {
    if !(0 <= keepAudit <= env.limits.maxAuditEntries) then Refused(st, InvalidOption)
    else
      var purged := if purgeDeleted then Tombstones(st.records) else {};
      var gone := DiscardedIds(st.staged, purged, discardBefore);
      var excess := if keepAudit > 0 && |st.audit| > keepAudit then |st.audit| - keepAudit else 0;
      Effect(st.(records := st.records - purged, staged := st.staged - gone, audit := st.audit[excess..]),
             Cleaned(CleanupReport(|purged|, |gone|, excess)))
  }

  // ---- Import ----

  /** Copies being edited, the running report, and the audit entries still to write. */
  datatype Plan = Plan(records: map<string, Record>, groups: Groups, report: ImportReport, audits: seq<AuditEntry>)

  function PlanGroup(plan: Plan, g: Group, policy: Policy, actor: string): (r: Plan) {
    if g.key in plan.groups then
      var current := plan.groups[g.key].version;
      var report := plan.report.(conflicts := plan.report.conflicts + [GroupConflict(g.key, current, g.version)]);
      if policy != Replace then plan.(report := report.(skipped := report.skipped + 1))
      else
        Plan(plan.records, plan.groups[g.key := g.(version := current + 1)],
             report.(updatedGroups := report.updatedGroups + 1),
             plan.audits + [AuditEntry(g.key, ImportUpdateAction, actor, current + 1)])
    else
      Plan(plan.records, plan.groups[g.key := g.(version := 1)],
           plan.report.(createdGroups := plan.report.createdGroups + 1),
           plan.audits + [AuditEntry(g.key, ImportCreateAction, actor, 1)])
  }

  function PlanFeature(plan: Plan, d: Definition, policy: Policy, actor: string): (r: Plan) {
    if d.key in plan.records then
      var current := plan.records[d.key].definition.version;
      var report := plan.report.(conflicts := plan.report.conflicts + [FeatureConflict(d.key, current, d.version)]);
      if policy != Replace then plan.(report := report.(skipped := report.skipped + 1))
      else
        Plan(plan.records[d.key := Record(d.(version := current + 1), false)], plan.groups,
             report.(updatedFeatures := report.updatedFeatures + 1),
             plan.audits + [AuditEntry(d.key, ImportUpdateAction, actor, current + 1)])
    else
      Plan(plan.records[d.key := Record(d.(version := 1), false)], plan.groups,
           plan.report.(createdFeatures := plan.report.createdFeatures + 1),
           plan.audits + [AuditEntry(d.key, ImportCreateAction, actor, 1)])
  }

  function PlanGroups(plan: Plan, gs: seq<Group>, policy: Policy, actor: string): (r: Plan) {
    if gs == [] then plan else PlanGroup(PlanGroups(plan, gs[..|gs| - 1], policy, actor), gs[|gs| - 1], policy, actor)
  }

  function PlanFeatures(plan: Plan, ds: seq<Definition>, policy: Policy, actor: string): (r: Plan) {
    if ds == [] then plan else PlanFeature(PlanFeatures(plan, ds[..|ds| - 1], policy, actor), ds[|ds| - 1], policy, actor)
  }

  function NoPlan(st: TenantState, dryRun: bool): (r: Plan) {
    Plan(st.records, st.groups, ImportReport(dryRun, 0, 0, 0, 0, 0, []), [])
  }

  function PlanOf(st: TenantState, c: Catalog, dryRun: bool, policy: Policy, actor: string): (r: Plan) {
    PlanFeatures(PlanGroups(NoPlan(st, dryRun), c.groups, policy, actor), c.definitions, policy, actor)
  }

  ghost function DocumentImported(
    env: Env, st: TenantState, document: DocumentWire, dryRun: bool, policy: Policy, actor: string, choice: Choice): (r: Effect)
  {
    if policy.UnknownPolicy? then Refused(st, InvalidOption)
    else
      match DecodedDocument(document)
      case Err(e) => Refused(st, InvalidDocument(e))
      case Ok(c) =>
        if !ListAccepted(env, c.definitions, c.groups, choice.documentOrder) then Refused(st, InvalidDocument(Rejected))
        else CatalogImported(env, st, c, dryRun, policy, actor, choice.graphOrder)
  }

  ghost function CatalogImported(
    env: Env, st: TenantState, c: Catalog, dryRun: bool, policy: Policy, actor: string, order: seq<string>): (r: Effect)
  {
    var plan := PlanOf(st, c, dryRun, policy, actor);
    if policy !in {Skip, Replace} && plan.report.conflicts != [] && !dryRun then
      Effect(st, Denied(ImportConflict, Some(plan.report)))
    else if !GraphOk(env, plan.records, plan.groups, order) then Effect(st, Denied(InvalidGraph, Some(plan.report)))
    else if dryRun then Effect(st, Planned(plan.report))
    else
      Effect(PlanCommitted(env.limits, st, plan), Planned(plan.report))
  }

  function PlanCommitted(limits: Limits, st: TenantState, plan: Plan): (r: TenantState) {
    st.(records := plan.records, groups := plan.groups, audit := LoggedAll(limits, st.audit, plan.audits))
  }

  // ---- Every call ----

  ghost function Perform(env: Env, st: TenantState, op: Op, choice: Choice): (r: Effect) {
    match op
    case Create(d, actor) => Created(env, st, d, actor)
    case Update(d, expected, actor) => Updated(env, st, d, expected, actor)
    case Activate(key, expected, actor) => LifecycleSet(env, st, key, expected, actor, Active, ActivateAction, false)
    case Deactivate(key, expected, actor) => LifecycleSet(env, st, key, expected, actor, Inactivated, DeactivateAction, false)
    case Delete(key, expected, actor) => LifecycleSet(env, st, key, expected, actor, Archived, DeleteAction, true)
    case Restore(key, expected, actor) => Restored(env, st, key, expected, actor)
    case CreateGroup(g, actor) => GroupCreated(env, st, g, actor)
    case UpdateGroup(g, expected, actor) => GroupUpdated(env, st, g, expected, actor)
    case DeleteGroup(key, expected, actor) => GroupDeleted(env, st, key, expected, actor)
    case AssignGroup(key, group, expected, actor) => GroupAssigned(env, st, key, group, expected, actor)
    case RemoveGroup(key, group, expected, actor) => GroupRemoved(env, st, key, group, expected, actor)
    case StageUpdate(d, expected, applyAt, actor) => StagedUpdate(env, st, d, expected, applyAt, actor)
    case ApplyStage(id, actor) => StageApplied(env, st, id, actor, choice.graphOrder)
    case ApplyScheduled(now, actor) => ScheduledApplied(env, st, now, actor, choice.graphOrder)
    case Cleanup(purgeDeleted, discardBefore, keepAudit) => CleanedUp(env, st, purgeDeleted, discardBefore, keepAudit)
    case ImportDocument(document, dryRun, policy, actor) => DocumentImported(env, st, document, dryRun, policy, actor, choice)
  }

  // ---- Which choices a call can really make ----

  /** The whole-graph check of a batch visits each resulting live feature. */
  ghost predicate BatchOrder(st: TenantState, ids: seq<nat>, order: seq<string>) {
    match ApplyEach(st.records, st.staged, ids)
    case Stopped(_) => true
    case Applied(records, _) => Elements(order) == Live(records).Keys
  }

  /** An import visits each feature of the document, and then each live feature of the plan. */
  ghost predicate PlanOrder(st: TenantState, c: Catalog, dryRun: bool, policy: Policy, actor: string, order: seq<string>) {
    Elements(order) == Live(PlanOf(st, c, dryRun, policy, actor).records).Keys
  }

  ghost predicate ImportOrders(
    st: TenantState, document: DocumentWire, dryRun: bool, policy: Policy, actor: string, choice: Choice)
  {
    match DecodedDocument(document)
    case Err(_) => true
    case Ok(c) =>
      Elements(choice.documentOrder) == Index(c.definitions, DefinitionKey).Keys
      && PlanOrder(st, c, dryRun, policy, actor, choice.graphOrder)
  }

  /** The orders are enumerations of what the call's checks visit. */
  ghost predicate Honest(st: TenantState, op: Op, choice: Choice) {
    match op
    case ApplyStage(id, _) => BatchOrder(st, [id], choice.graphOrder)
    case ApplyScheduled(now, _) => BatchOrder(st, DueIds(st, now), choice.graphOrder)
    case ImportDocument(document, dryRun, policy, actor) => ImportOrders(st, document, dryRun, policy, actor, choice)
    case _ => true
  }

  ghost function SomeOrder(keys: set<string>): (order: seq<string>)
    ensures Elements(order) == keys
  {
    Ascending(StringLeq, keys)
  }

  ghost function SomeBatchOrder(st: TenantState, ids: seq<nat>): (order: seq<string>)
    ensures BatchOrder(st, ids, order)
  {
    match ApplyEach(st.records, st.staged, ids)
    case Stopped(_) => []
    case Applied(records, _) => SomeOrder(Live(records).Keys)
  }

  ghost function SomeImportOrders(st: TenantState, document: DocumentWire, dryRun: bool, policy: Policy, actor: string)
    : (choice: Choice)
    ensures ImportOrders(st, document, dryRun, policy, actor, choice)
  {
    match DecodedDocument(document)
    case Err(_) => Choice([], [])
    case Ok(c) =>
      Choice(SomeOrder(Index(c.definitions, DefinitionKey).Keys),
             SomeOrder(Live(PlanOf(st, c, dryRun, policy, actor).records).Keys))
  }

  /** Whatever the state, every call has an honest choice. */
  ghost function SomeChoice(st: TenantState, op: Op): (choice: Choice)
    ensures Honest(st, op, choice)
  {
    match op
    case ApplyStage(id, _) => Choice([], SomeBatchOrder(st, [id]))
    case ApplyScheduled(now, _) => Choice([], SomeBatchOrder(st, DueIds(st, now)))
    case ImportDocument(document, dryRun, policy, actor) => SomeImportOrders(st, document, dryRun, policy, actor)
    case _ => Choice([], [])
  }

  /** A dry-run import only plans. */
  predicate ReadOnly(op: Op) { op.ImportDocument? && op.dryRun }

  /** Every call is all or nothing: a refused call and a dry run leave the state alone. */
  lemma FailureChangesNothing(env: Env, st: TenantState, op: Op, choice: Choice)
    requires Perform(env, st, op, choice).answer.Denied? || ReadOnly(op)
    ensures Perform(env, st, op, choice).state == st
  {
    hide ValidDefinition, GroupsAccepted, GraphOk, PlanOf, ApplyEach, DecodedDocument, ListAccepted, DueIds;
  }
}
