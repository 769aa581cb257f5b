/** Which management calls leave a state whose document can be read again, and the calls that may not. */
module Readability {
  import opened Ordering
  import opened Keyed
  import opened Model
  import opened GroupForest
  import opened DependencyGraph
  import opened Evaluator
  import opened Codec
  import opened Portable
  import opened Tenant
  import opened TenantInvariant
  import opened StateDocument

  /**
   * What a caller has to see to it that the document stays readable. Writing or restoring a feature does not look at
   * its attachments, and attaching a group does not count them.
   */
  ghost predicate KeepsReadable(env: Env, st: TenantState, op: Op) {
    match op
    case Create(d, _) => Attached(env, d, st.groups)
    case Update(d, _, _) => Attached(env, d, st.groups)
    case Restore(key, _, _) => key in st.records ==> Attached(env, st.records[key].definition, st.groups)
    case AssignGroup(key, group, _, _) =>
      key in st.records ==>
        var attached := st.records[key].definition.groups; group in attached || |attached| < env.limits.maxGroups
    case _ => true
  }

  // ---- One record replaced ----

  ghost predicate RecordReadable(env: Env, record: Record, gs: Groups) {
    ValidDefinition(env, record.definition) && (!record.deleted ==> Attached(env, record.definition, gs))
  }

  lemma StoredIsLoadable(env: Env, st: TenantState, key: string, record: Record, action: Action, actor: string)
    requires Loadable(env, st)
    ensures Loadable(env, Stored(env.limits, st, key, record, action, actor)) <==> RecordReadable(env, record, st.groups)
  {
    hide ValidDefinition, Attached;
    var after := Stored(env.limits, st, key, record, action, actor);
    var live, before := Live(after.records), Live(st.records);
    assert forall k :: k in live && k != key ==> k in before && live[k] == before[k];
    assert !record.deleted ==> key in live && live[key] == record.definition;
    assert record.deleted ==> key !in live;
    assert after.records[key] == record;
  }

  /** Neither lifecycle nor version is checked when a definition is read. */
  lemma SameChecks(env: Env, d: Definition, lifecycle: Lifecycle, version: nat, gs: Groups)
    ensures var e := d.(lifecycle := lifecycle, version := version);
            (ValidDefinition(env, e) <==> ValidDefinition(env, d)) && (Attached(env, e, gs) <==> Attached(env, d, gs))
  {
    hide ValidKey, ValidValue, ValidLabels, ValidStrategy, ChainTargets;
  }

  lemma RecordIsReadable(env: Env, st: TenantState, key: string)
    requires Loadable(env, st) && key in st.records
    ensures RecordReadable(env, st.records[key], st.groups)
  {
    hide ValidDefinition, Attached;
    if !st.records[key].deleted { assert key in Live(st.records); }
  }

  lemma WrittenStaysReadable(env: Env, st: TenantState, d: Definition, version: nat, action: Action, actor: string)
    requires Loadable(env, st) && ValidDefinition(env, d)
    ensures Loadable(env, Stored(env.limits, st, d.key, Record(d.(version := version), false), action, actor))
            <==> Attached(env, d, st.groups)
  {
    hide ValidDefinition, Attached, Loadable, Stored;
    SameChecks(env, d, d.lifecycle, version, st.groups);
    StoredIsLoadable(env, st, d.key, Record(d.(version := version), false), action, actor);
  }

  lemma LifecycleStaysReadable(
    env: Env, st: TenantState, key: string, lifecycle: Lifecycle, version: nat, deleted: bool, action: Action, actor: string)
    requires Loadable(env, st) && key in st.records
    ensures var d := st.records[key].definition.(lifecycle := lifecycle, version := version);
            Loadable(env, Stored(env.limits, st, key, Record(d, deleted), action, actor))
            <==> deleted || Attached(env, st.records[key].definition, st.groups)
  {
    hide ValidDefinition, Attached, Loadable, Stored;
    RecordIsReadable(env, st, key);
    SameChecks(env, st.records[key].definition, lifecycle, version, st.groups);
    StoredIsLoadable(env, st, key, Record(st.records[key].definition.(lifecycle := lifecycle, version := version), deleted), action, actor);
  }

  // ---- Attachments ----

  /** Other attachments leave everything valid but their own number and keys. */
  lemma RegroupedIsValid(env: Env, d: Definition, groups: seq<string>, version: nat)
    requires ValidDefinition(env, d) && forall i :: 0 <= i < |groups| ==> ValidKey(env.limits, groups[i])
    ensures ValidDefinition(env, d.(groups := groups, version := version)) <==> |groups| <= env.limits.maxGroups
  {
    hide ValidKey, ValidValue, ValidLabels, ValidStrategy;
  }

  lemma ValidGroupKeys(env: Env, d: Definition)
    requires ValidDefinition(env, d)
    ensures forall i :: 0 <= i < |d.groups| ==> ValidKey(env.limits, d.groups[i])
    ensures |d.groups| <= env.limits.maxGroups
  {
    hide ValidKey, ValidValue, ValidLabels, ValidStrategy;
  }

  lemma GroupHasValidKey(env: Env, st: TenantState, group: string)
    requires Inv(env, st) && group in st.groups
    ensures ValidKey(env.limits, group)
  {
    hide RecordsKeyed, StagesOk, OnePerKey, ParentsExist, Forest;
    assert ValidGroup(env, st.groups[group]) && st.groups[group].key == group;
  }

  lemma AppendedKeys(limits: Limits, groups: seq<string>, group: string)
    requires ValidKey(limits, group) && forall i :: 0 <= i < |groups| ==> ValidKey(limits, groups[i])
    ensures forall i :: 0 <= i < |groups + [group]| ==> ValidKey(limits, (groups + [group])[i])
  {
  }

  lemma AcceptedIsAttached(env: Env, live: map<string, Definition>, key: string, d: Definition, version: nat, gs: Groups)
    requires GroupsAccepted(env, live[key := d], gs)
    ensures Attached(env, d.(version := version), gs)
  {
    hide GroupsWellFormed, ChainTargets;
    assert live[key := d][key] == d;
  }

  lemma AssigningStaysReadable(env: Env, st: TenantState, key: string, group: string, expected: nat, actor: string)
    requires Inv(env, st) && Loadable(env, st) && !GroupAssigned(env, st, key, group, expected, actor).answer.Denied?
    ensures IsLive(st, key)
    ensures Loadable(env, GroupAssigned(env, st, key, group, expected, actor).state)
            <==> group in st.records[key].definition.groups || |st.records[key].definition.groups| < env.limits.maxGroups
  {
    hide Inv, Loadable, ValidDefinition, Attached, GroupsAccepted, Stored;
    var d := st.records[key].definition;
    if group !in d.groups {
      RecordIsReadable(env, st, key);
      ValidGroupKeys(env, d);
      GroupHasValidKey(env, st, group);
      AppendedKeys(env.limits, d.groups, group);
      var attached := d.(groups := d.groups + [group]);
      RegroupedIsValid(env, d, d.groups + [group], expected + 1);
      AcceptedIsAttached(env, Live(st.records), key, attached, expected + 1, st.groups);
      StoredIsLoadable(env, st, key, Record(attached.(version := expected + 1), false), AssignAction, actor);
    }
  }

  lemma FewerAttached(env: Env, d: Definition, groups: seq<string>, version: nat, gs: Groups)
    requires Attached(env, d, gs) && forall g :: g in groups ==> g in d.groups
    ensures Attached(env, d.(groups := groups, version := version), gs)
  {
    hide ChainTargets;
    forall i | 0 <= i < |groups| ensures groups[i] in gs && ChainTargets(gs, groups[i], d.variants, env.limits.maxGroupDepth) {
      assert groups[i] in d.groups;
    }
  }

  lemma FewerKeys(limits: Limits, groups: seq<string>, fewer: seq<string>)
    requires (forall i :: 0 <= i < |groups| ==> ValidKey(limits, groups[i])) && forall g :: g in fewer ==> g in groups
    ensures forall i :: 0 <= i < |fewer| ==> ValidKey(limits, fewer[i])
  {
    forall i | 0 <= i < |fewer| ensures ValidKey(limits, fewer[i]) { assert fewer[i] in groups; }
  }

  lemma RemovingStaysReadable(env: Env, st: TenantState, key: string, group: string, expected: nat, actor: string)
    requires Loadable(env, st)
    ensures Loadable(env, GroupRemoved(env, st, key, group, expected, actor).state)
  {
    hide Loadable, ValidDefinition, Attached, Stored;
    if !GroupRemoved(env, st, key, group, expected, actor).answer.Denied? {
      var d := st.records[key].definition;
      var fewer := Without(d.groups, group);
      RecordIsReadable(env, st, key);
      ValidGroupKeys(env, d);
      assert forall g :: g in fewer ==> g in d.groups;
      FewerKeys(env.limits, d.groups, fewer);
      RegroupedIsValid(env, d, fewer, expected + 1);
      FewerAttached(env, d, fewer, expected + 1, st.groups);
      StoredIsLoadable(env, st, key, Record(d.(groups := fewer, version := expected + 1), false), RemoveAction, actor);
    }
  }

  // ---- Groups replaced ----

  lemma RegroupingStaysReadable(env: Env, st: TenantState, gs: Groups, audit: seq<AuditEntry>)
    requires Loadable(env, st) && AllAttached(env, Live(st.records), gs)
    ensures Loadable(env, st.(groups := gs, audit := audit))
  {
    hide AllAttached, RecordsValid, StagesValid;
  }

  lemma {:induction false} TargetsWithout(gs: Groups, gone: string, key: string, variants: map<string, Value>, budget: int)
    requires gone != "" && key != gone && (forall k :: k in gs ==> gs[k].parent != gone) && ChainTargets(gs, key, variants, budget)
    ensures ChainTargets(gs - {gone}, key, variants, budget)
    decreases if budget < 0 then 0 else budget + 1
  {
    if key != "" && budget >= 0 { TargetsWithout(gs, gone, ParentOf(gs, key), variants, budget - 1); }
  }

  lemma AttachedWithout(env: Env, d: Definition, gs: Groups, gone: string)
    requires Attached(env, d, gs) && gone != "" && gone !in d.groups && forall k :: k in gs ==> gs[k].parent != gone
    ensures Attached(env, d, gs - {gone})
  {
    forall i | 0 <= i < |d.groups|
      ensures d.groups[i] in gs - {gone} && ChainTargets(gs - {gone}, d.groups[i], d.variants, env.limits.maxGroupDepth)
    {
      TargetsWithout(gs, gone, d.groups[i], d.variants, env.limits.maxGroupDepth);
    }
  }

  lemma UnusedIsDetached(env: Env, st: TenantState, gone: string)
    requires AllAttached(env, Live(st.records), st.groups) && gone != "" && !GroupUsed(st, gone)
    ensures AllAttached(env, Live(st.records), st.groups - {gone})
  {
    hide Attached;
    forall k | k in Live(st.records) ensures Attached(env, Live(st.records)[k], st.groups - {gone}) {
      assert gone !in st.records[k].definition.groups;
      AttachedWithout(env, st.records[k].definition, st.groups, gone);
    }
  }

  /** Only unused groups are deleted, and use is judged by live features, as reading is. */
  lemma DeletingStaysReadable(env: Env, st: TenantState, key: string, expected: nat, actor: string)
    requires Inv(env, st) && Loadable(env, st)
    ensures Loadable(env, GroupDeleted(env, st, key, expected, actor).state)
  {
    hide Inv, AllAttached, RecordsValid, StagesValid, Logged, GroupUsed;
    if !GroupDeleted(env, st, key, expected, actor).answer.Denied? {
      GroupHasValidKey(env, st, key);
      UnusedIsDetached(env, st, key);
      RegroupingStaysReadable(env, st, st.groups - {key}, GroupErased(env.limits, st, key, expected + 1, actor).audit);
    }
  }

  lemma AddingGroupStaysReadable(env: Env, st: TenantState, g: Group, action: Action, actor: string)
    requires Loadable(env, st) && GroupsAccepted(env, Live(st.records), st.groups[g.key := g])
    ensures Loadable(env, GroupStored(env.limits, st, g, action, actor))
  {
    hide Loadable, GroupsWellFormed, AllAttached, Logged;
    RegroupingStaysReadable(env, st, st.groups[g.key := g], GroupStored(env.limits, st, g, action, actor).audit);
  }

  // ---- Whole graphs checked ----

  /** Tombstones come from before, and so do pending stages. */
  ghost predicate Preserves(st: TenantState, after: TenantState) {
    && (forall k :: k in after.records && after.records[k].deleted ==> k in st.records && after.records[k] == st.records[k])
    && (forall id :: id in after.staged ==> id in st.staged && after.staged[id] == st.staged[id])
  }

  lemma CheckedIsReadable(env: Env, st: TenantState, after: TenantState, order: seq<string>)
    requires Loadable(env, st) && Preserves(st, after) && GraphOk(env, after.records, after.groups, order)
    ensures Loadable(env, after)
  {
    hide ValidDefinition, GroupsWellFormed, Attached, GraphVerdict;
    forall k | k in after.records ensures ValidDefinition(env, after.records[k].definition) {
      if !after.records[k].deleted { assert Live(after.records)[k] == after.records[k].definition; }
    }
  }

  lemma {:induction false} BatchTombstones(records: map<string, Record>, staged: map<nat, StagedChange>, ids: seq<nat>)
    ensures var b := ApplyEach(records, staged, ids);
            b.Applied? ==> forall k :: k in b.records && b.records[k].deleted ==> k in records && b.records[k] == records[k]
  {
    if ids != [] { BatchTombstones(records, staged, ids[..|ids| - 1]); }
  }

  lemma ApplyingStaysReadable(env: Env, st: TenantState, ids: seq<nat>, actor: string, order: seq<string>)
    requires Loadable(env, st)
    ensures Loadable(env, StagesApplied(env, st, ids, actor, order).state)
  {
    hide Loadable, GraphOk, LoggedAll;
    BatchTombstones(st.records, st.staged, ids);
    hide ApplyEach;
    var e := StagesApplied(env, st, ids, actor, order);
    if !e.answer.Denied? { CheckedIsReadable(env, st, e.state, order); }
  }

  lemma {:induction false} PlanTombstones(plan: Plan, ds: seq<Definition>, policy: Policy, actor: string)
    ensures var r := PlanFeatures(plan, ds, policy, actor).records;
            forall k :: k in r && r[k].deleted ==> k in plan.records && r[k] == plan.records[k]
  {
    if ds != [] { PlanTombstones(plan, ds[..|ds| - 1], policy, actor); }
  }

  lemma ImportingStaysReadable(env: Env, st: TenantState, c: Catalog, dryRun: bool, policy: Policy, actor: string, order: seq<string>)
    requires Loadable(env, st)
    ensures Loadable(env, CatalogImported(env, st, c, dryRun, policy, actor, order).state)
  {
    PlanGroupsKeepRecords(NoPlan(st, dryRun), c.groups, policy, actor);
    PlanTombstones(PlanGroups(NoPlan(st, dryRun), c.groups, policy, actor), c.definitions, policy, actor);
    hide Loadable, GraphOk, LoggedAll, PlanGroups, PlanFeatures;
    var e, plan := CatalogImported(env, st, c, dryRun, policy, actor, order), PlanOf(st, c, dryRun, policy, actor);
    if e.state != st { CheckedIsReadable(env, st, e.state, order); }
  }

  lemma DocumentStaysReadable(
    env: Env, st: TenantState, document: DocumentWire, dryRun: bool, policy: Policy, actor: string, choice: Choice)
    requires Loadable(env, st)
    ensures Loadable(env, DocumentImported(env, st, document, dryRun, policy, actor, choice).state)
  {
    hide Loadable, CatalogImported, ListAccepted, DecodedDocument;
    if DecodedDocument(document).Ok? {
      ImportingStaysReadable(env, st, DecodedDocument(document).value, dryRun, policy, actor, choice.graphOrder);
    }
  }

  lemma CleaningStaysReadable(env: Env, st: TenantState, purgeDeleted: bool, discardBefore: int, keepAudit: int)
    requires Loadable(env, st)
    ensures Loadable(env, CleanedUp(env, st, purgeDeleted, discardBefore, keepAudit).state)
  {
    hide ValidDefinition, Attached, Discarded;
    var after := CleanedUp(env, st, purgeDeleted, discardBefore, keepAudit).state;
    assert forall k :: k in Live(after.records) ==> k in Live(st.records) && Live(after.records)[k] == Live(st.records)[k];
  }

  lemma StagingStaysReadable(env: Env, st: TenantState, d: Definition, expected: nat, applyAt: int, actor: string)
    requires Loadable(env, st)
    ensures Loadable(env, StagedUpdate(env, st, d, expected, applyAt, actor).state)
  {
    hide ValidDefinition, AllAttached, Logged, HasStage;
  }

  // ---- Every call ----

  lemma FeatureCallsStayReadable(env: Env, st: TenantState, op: Op, choice: Choice)
    requires Inv(env, st) && Loadable(env, st) && !Perform(env, st, op, choice).answer.Denied?
    requires op.Create? || op.Update? || op.Activate? || op.Deactivate? || op.Delete? || op.Restore?
    ensures Loadable(env, Perform(env, st, op, choice).state) <==> KeepsReadable(env, st, op)
  {
    hide Inv, Loadable, ValidDefinition, Attached, Stored;
    match op
    case Create(d, actor) => WrittenStaysReadable(env, st, d, 1, CreateAction, actor);
    case Update(d, expected, actor) => WrittenStaysReadable(env, st, d, expected + 1, UpdateAction, actor);
    case Activate(key, expected, actor) =>
      RecordIsReadable(env, st, key);
      LifecycleStaysReadable(env, st, key, Active, expected + 1, false, ActivateAction, actor);
    case Deactivate(key, expected, actor) =>
      RecordIsReadable(env, st, key);
      LifecycleStaysReadable(env, st, key, Inactivated, expected + 1, false, DeactivateAction, actor);
    case Delete(key, expected, actor) => LifecycleStaysReadable(env, st, key, Archived, expected + 1, true, DeleteAction, actor);
    case Restore(key, expected, actor) => LifecycleStaysReadable(env, st, key, Inactivated, expected + 1, false, RestoreAction, actor);
  }

  lemma GroupCallsStayReadable(env: Env, st: TenantState, op: Op, choice: Choice)
    requires Inv(env, st) && Loadable(env, st) && !Perform(env, st, op, choice).answer.Denied?
    requires op.CreateGroup? || op.UpdateGroup? || op.DeleteGroup? || op.AssignGroup? || op.RemoveGroup?
    ensures Loadable(env, Perform(env, st, op, choice).state) <==> KeepsReadable(env, st, op)
  {
    hide Inv, Loadable, GroupsAccepted, GroupStored, GroupDeleted, GroupAssigned, GroupRemoved;
    match op
    case CreateGroup(g, actor) => AddingGroupStaysReadable(env, st, g.(version := 1), GroupCreateAction, actor);
    case UpdateGroup(g, expected, actor) => AddingGroupStaysReadable(env, st, g.(version := expected + 1), GroupUpdateAction, actor);
    case DeleteGroup(key, expected, actor) => DeletingStaysReadable(env, st, key, expected, actor);
    case AssignGroup(key, group, expected, actor) => AssigningStaysReadable(env, st, key, group, expected, actor);
    case RemoveGroup(key, group, expected, actor) => RemovingStaysReadable(env, st, key, group, expected, actor);
  }

  lemma OtherCallsStayReadable(env: Env, st: TenantState, op: Op, choice: Choice)
    requires Loadable(env, st)
    requires op.StageUpdate? || op.ApplyStage? || op.ApplyScheduled? || op.Cleanup? || op.ImportDocument?
    ensures Loadable(env, Perform(env, st, op, choice).state)
  {
    hide Loadable, StagedUpdate, StagesApplied, DueIds, CleanedUp, DocumentImported;
    match op
    case StageUpdate(d, expected, applyAt, actor) => StagingStaysReadable(env, st, d, expected, applyAt, actor);
    case ApplyStage(id, actor) => ApplyingStaysReadable(env, st, [id], actor, choice.graphOrder);
    case ApplyScheduled(now, actor) => ApplyingStaysReadable(env, st, DueIds(st, now), actor, choice.graphOrder);
    case Cleanup(purge, before, keep) => CleaningStaysReadable(env, st, purge, before, keep);
    case ImportDocument(document, dryRun, policy, actor) =>
      DocumentStaysReadable(env, st, document, dryRun, policy, actor, choice);
  }

  /**
   * From a readable state, any of the sixteen calls leaves a readable state exactly when it is refused or its caller
   * met the condition above; only creating, updating, restoring and attaching have one.
   */
  lemma CallsStayReadableExactlyWhen(env: Env, st: TenantState, op: Op, choice: Choice)
    requires Inv(env, st) && Loadable(env, st)
    ensures Loadable(env, Perform(env, st, op, choice).state)
            <==> Perform(env, st, op, choice).answer.Denied? || KeepsReadable(env, st, op)
  {
    hide Inv, Loadable, Perform;
    if Perform(env, st, op, choice).answer.Denied? {
      FailureChangesNothing(env, st, op, choice);
    } else if op.Create? || op.Update? || op.Activate? || op.Deactivate? || op.Delete? || op.Restore? {
      FeatureCallsStayReadable(env, st, op, choice);
    } else if op.CreateGroup? || op.UpdateGroup? || op.DeleteGroup? || op.AssignGroup? || op.RemoveGroup? {
      GroupCallsStayReadable(env, st, op, choice);
    } else {
      OtherCallsStayReadable(env, st, op, choice);
    }
  }

  // ---- Documents that are written and cannot be read ----

  /** The state is reachable and written, and if its document fits the limit, it is stored and cannot be read. */
  ghost predicate StoredUnreadable(env: Env, size: Size, st: TenantState) {
    && Inv(env, st) && DocumentOf(st).Some?
    && (size(DocumentOf(st).value) <= env.limits.maxStateBytes ==>
          Marshalled(env, size, st) == DocumentOf(st) && Unmarshalled(env, size, DocumentOf(st).value) == None)
  }

  /** Every call succeeds, from the empty tenant on. */
  ghost predicate Succeeds(env: Env, states: seq<TenantState>, ops: seq<Op>) {
    && |states| == |ops| + 1 && states[0] == EMPTY
    && forall i :: 0 <= i < |ops| ==> StepTo(env, states[i], ops[i], states[i + 1])
  }

  const NO_CHOICE := Choice([], [])

  ghost predicate StepTo(env: Env, st: TenantState, op: Op, after: TenantState) {
    var e := Perform(env, st, op, NO_CHOICE);
    Honest(st, op, NO_CHOICE) && !e.answer.Denied? && after == e.state
  }

  ghost predicate Good(env: Env, st: TenantState) { Inv(env, st) && Loadable(env, st) }

  lemma EmptyIsGood(env: Env)
    ensures Good(env, EMPTY)
  {
    EmptyIsInv(env);
  }

  lemma StepStaysGood(env: Env, st: TenantState, op: Op, after: TenantState)
    requires Good(env, st) && StepTo(env, st, op, after)
    ensures Inv(env, after) && (Loadable(env, after) <==> KeepsReadable(env, st, op))
  {
    hide Inv, Loadable, Perform, KeepsReadable, Honest;
    PerformKeeps(env, st, op, NO_CHOICE);
    CallsStayReadableExactlyWhen(env, st, op, NO_CHOICE);
  }

  function Plain(key: string): (g: Group) { Group(key, "", map[], "", [], 1, []) }

  /** A boolean feature without strategies, attached to the given groups. */
  function Member(groups: seq<string>, version: nat): (d: Definition) {
    Definition("f", BooleanType, BooleanValue(true), map[], map[], "", Active, [], groups, [], version, [])
  }

  /** What a step of the examples leaves, apart from the audit log. */
  ghost predicate Looks(st: TenantState, records: map<string, Record>, gs: Groups) {
    st.records == records && st.groups == gs && st.staged == map[]
  }

  ghost predicate AllPlain(gs: Groups) { forall k :: k in gs ==> gs[k] == Plain(k) && |k| == 1 }

  ghost predicate Members(records: map<string, Record>) {
    forall k :: k in records ==> records[k].definition.strategies == []
  }

  lemma PlainAttached(env: Env, d: Definition, gs: Groups)
    requires AllPlain(gs)
    ensures Attached(env, d, gs) <==> forall i :: 0 <= i < |d.groups| ==> d.groups[i] in gs
  {
    forall k, budget: int | k in gs ensures ChainTargets(gs, k, d.variants, budget) {
      assert StrategiesOf(gs, k) == [] && ParentOf(gs, k) == "";
    }
  }

  lemma PlainWellFormed(env: Env, gs: Groups)
    requires AllPlain(gs) && |gs| <= env.limits.maxGroups && env.limits.maxKeyBytes >= 1
    ensures GroupsWellFormed(env, gs)
  {
    forall k | k in gs ensures ChainFits(gs, k, env.limits.maxGroupDepth) { assert ParentOf(gs, k) == ""; }
  }

  lemma PlainAccepted(env: Env, definitions: map<string, Definition>, gs: Groups)
    requires AllPlain(gs) && |gs| <= env.limits.maxGroups && env.limits.maxKeyBytes >= 1
    requires forall k, i :: k in definitions && 0 <= i < |definitions[k].groups| ==> definitions[k].groups[i] in gs
    ensures GroupsAccepted(env, definitions, gs)
  {
    hide GroupsWellFormed, Attached;
    PlainWellFormed(env, gs);
    forall k | k in definitions ensures Attached(env, definitions[k], gs) { PlainAttached(env, definitions[k], gs); }
  }

  lemma MemberIsValid(env: Env, groups: seq<string>, version: nat)
    requires env.limits.maxKeyBytes >= 1 && |groups| <= env.limits.maxGroups && forall i :: 0 <= i < |groups| ==> |groups[i]| == 1
    ensures ValidDefinition(env, Member(groups, version))
  {
  }

  lemma MapEncodesAll<K(!new), A(!new), B>(leq: (K, K) -> bool, m: map<K, A>, encode: A -> Result<B>)
    requires forall k :: k in m ==> encode(m[k]).Ok?
    ensures MapAll(encode, Arranged(leq, m)).Ok?
  {
    ArrangedAll(leq, m);
    var xs := Arranged(leq, m);
    forall i | 0 <= i < |xs| ensures encode(xs[i]).Ok? { assert xs[i] in xs; }
    hide Arranged;
  }

  lemma MembersAreWritten(records: map<string, Record>)
    requires Members(records)
    ensures MapAll(EncodeRecord, Arranged(StringLeq, records)).Ok?
  {
    forall k | k in records ensures EncodeRecord(records[k]).Ok? { RecordRoundTrip(records[k]); }
    hide EncodeRecord;
    MapEncodesAll(StringLeq, records, EncodeRecord);
  }

  lemma GroupsAreWritten(gs: Groups)
    requires AllPlain(gs)
    ensures MapAll(EncodedGroup, Arranged(StringLeq, gs)).Ok?
  {
    forall k | k in gs ensures EncodedGroup(gs[k]).Ok? { GroupRoundTrip(gs[k]); }
    hide EncodedGroup;
    MapEncodesAll(StringLeq, gs, EncodedGroup);
  }

  lemma PlainIsWritten(records: map<string, Record>, gs: Groups, st: TenantState)
    requires Looks(st, records, gs) && AllPlain(gs) && Members(records)
    ensures DocumentOf(st).Some?
  {
    hide Members, AllPlain, EncodeRecord, EncodedGroup, EncodeStage;
    MembersAreWritten(records);
    GroupsAreWritten(gs);
    MapEncodesAll(NatLeq, st.staged, EncodeStage);
  }

  lemma UnreadableIsStored(env: Env, size: Size, st: TenantState)
    requires Inv(env, st) && DocumentOf(st).Some? && !Loadable(env, st)
    ensures StoredUnreadable(env, size, st)
  {
    hide Inv, DocumentOf, Unmarshalled, Loadable;
    if size(DocumentOf(st).value) <= env.limits.maxStateBytes { DocumentReadsBackExactlyWhen(env, size, st); }
  }

  lemma CreateGroupLooks(env: Env, st: TenantState, records: map<string, Record>, gs: Groups, key: string, actor: string)
    returns (after: TenantState)
    requires Looks(st, records, gs) && AllPlain(gs[key := Plain(key)]) && key !in gs && |gs| < env.limits.maxGroups
    requires records == map[] && env.limits.maxKeyBytes >= 1
    ensures StepTo(env, st, CreateGroup(Plain(key), actor), after) && Looks(after, records, gs[key := Plain(key)])
  {
    hide GroupsAccepted, Logged, AllPlain;
    MapGrows(gs, key, Plain(key));
    PlainAccepted(env, Live(records), gs[key := Plain(key)]);
    after := Perform(env, st, CreateGroup(Plain(key), actor), NO_CHOICE).state;
  }

  lemma CreateLooks(env: Env, st: TenantState, gs: Groups, groups: seq<string>, actor: string) returns (after: TenantState)
    requires Looks(st, map[], gs) && env.limits.maxKeyBytes >= 1 && env.limits.maxFeatures >= 1
    requires |groups| <= env.limits.maxGroups && forall i :: 0 <= i < |groups| ==> |groups[i]| == 1
    ensures StepTo(env, st, Create(Member(groups, 1), actor), after)
    ensures Looks(after, map["f" := Record(Member(groups, 1), false)], gs)
  {
    MemberIsValid(env, groups, 1);
    hide ValidDefinition, Logged;
    after := Perform(env, st, Create(Member(groups, 1), actor), NO_CHOICE).state;
  }

  // ---- A created feature ----

  /** Creating a feature attached to a group that does not exist succeeds, is stored if it fits, and then cannot be loaded. */
  lemma CreatedDocumentCanBeUnreadable(env: Env, size: Size, actor: string) returns (states: seq<TenantState>)
    requires env.limits.maxKeyBytes >= 1 && env.limits.maxGroups >= 1 && env.limits.maxFeatures >= 1
    ensures Succeeds(env, states, [Create(Member(["g"], 1), actor)]) && StoredUnreadable(env, size, states[1])
  {
    hide StepTo, Good, StoredUnreadable, Attached, DocumentOf;
    EmptyIsGood(env);
    var after := CreateLooks(env, EMPTY, map[], ["g"], actor);
    states := [EMPTY, after];
    StepStaysGood(env, EMPTY, Create(Member(["g"], 1), actor), after);
    PlainAttached(env, Member(["g"], 1), map[]);
    assert Member(["g"], 1).groups[0] == "g";
    PlainIsWritten(map["f" := Record(Member(["g"], 1), false)], map[], after);
    UnreadableIsStored(env, size, after);
  }

  // ---- A restored feature ----

  function RestoreOps(actor: string): (ops: seq<Op>) {
    [CreateGroup(Plain("g"), actor), Create(Member(["g"], 1), actor), Delete("f", 1, actor), DeleteGroup("g", 1, actor),
     Restore("f", 2, actor)]
  }

  const TOMBSTONE := Record(Member(["g"], 2).(lifecycle := Archived), true)

  const RESTORED := Record(Member(["g"], 3).(lifecycle := Inactivated), false)

  lemma DeleteLooks(env: Env, st: TenantState, actor: string) returns (after: TenantState)
    requires Looks(st, map["f" := Record(Member(["g"], 1), false)], map["g" := Plain("g")])
    ensures StepTo(env, st, Delete("f", 1, actor), after) && Looks(after, map["f" := TOMBSTONE], map["g" := Plain("g")])
  {
    hide Logged;
    after := Perform(env, st, Delete("f", 1, actor), NO_CHOICE).state;
  }

  /** The group is attached to a tombstone only, so it counts as unused. */
  lemma DeleteGroupLooks(env: Env, st: TenantState, actor: string) returns (after: TenantState)
    requires Looks(st, map["f" := TOMBSTONE], map["g" := Plain("g")])
    ensures StepTo(env, st, DeleteGroup("g", 1, actor), after) && Looks(after, map["f" := TOMBSTONE], map[])
  {
    hide Logged;
    after := Perform(env, st, DeleteGroup("g", 1, actor), NO_CHOICE).state;
  }

  lemma RestoreLooks(env: Env, st: TenantState, actor: string) returns (after: TenantState)
    requires Looks(st, map["f" := TOMBSTONE], map[])
    ensures StepTo(env, st, Restore("f", 2, actor), after) && Looks(after, map["f" := RESTORED], map[])
  {
    hide Logged;
    after := Perform(env, st, Restore("f", 2, actor), NO_CHOICE).state;
  }

  /**
   * Deleting a feature, then the group it was attached to, then restoring the feature: every call succeeds, every
   * state before the last can be read, and the last is stored if it fits and cannot be loaded.
   */
  lemma RestoredDocumentCanBeUnreadable(env: Env, size: Size, actor: string) returns (states: seq<TenantState>)
    requires env.limits.maxKeyBytes >= 1 && env.limits.maxGroups >= 1 && env.limits.maxFeatures >= 1
    ensures Succeeds(env, states, RestoreOps(actor))
    ensures (forall i :: 0 <= i < 5 ==> Good(env, states[i])) && StoredUnreadable(env, size, states[5])
  {
    hide *;
    LooksEmpty();
    var s1 := CreateGroupLooks(env, EMPTY, map[], map[], "g", actor);
    var s2 := CreateLooks(env, s1, map["g" := Plain("g")], ["g"], actor);
    var s3 := DeleteLooks(env, s2, actor);
    var s4 := DeleteGroupLooks(env, s3, actor);
    var s5 := RestoreLooks(env, s4, actor);
    states := [EMPTY, s1, s2, s3, s4, s5];
    RestoreSteps(env, states, actor);
    RestoreIsGood(env, s1, s2, s3, s4, s5, actor);
    RestoredIsPlain();
    PlainIsWritten(map["f" := RESTORED], map[], s5);
    UnreadableIsStored(env, size, s5);
  }

  lemma RestoreSteps(env: Env, states: seq<TenantState>, actor: string)
    requires |states| == 6 && states[0] == EMPTY
    requires StepTo(env, states[0], CreateGroup(Plain("g"), actor), states[1])
    requires StepTo(env, states[1], Create(Member(["g"], 1), actor), states[2])
    requires StepTo(env, states[2], Delete("f", 1, actor), states[3])
    requires StepTo(env, states[3], DeleteGroup("g", 1, actor), states[4])
    requires StepTo(env, states[4], Restore("f", 2, actor), states[5])
    ensures Succeeds(env, states, RestoreOps(actor))
    ensures forall i :: 0 <= i < 5 ==> StepTo(env, states[i], RestoreOps(actor)[i], states[i + 1])
  {
    hide StepTo;
  }

  lemma RestoredIsPlain()
    ensures AllPlain(map[]) && Members(map["f" := RESTORED])
  {
  }

  lemma LooksEmpty()
    ensures Looks(EMPTY, map[], map[]) && AllPlain(map["g" := Plain("g")]) && map[]["g" := Plain("g")] == map["g" := Plain("g")]
  {
  }

  lemma RestoreIsGood(
    env: Env, s1: TenantState, s2: TenantState, s3: TenantState, s4: TenantState, s5: TenantState, actor: string)
    requires StepTo(env, EMPTY, RestoreOps(actor)[0], s1) && StepTo(env, s1, RestoreOps(actor)[1], s2)
    requires StepTo(env, s2, RestoreOps(actor)[2], s3) && StepTo(env, s3, RestoreOps(actor)[3], s4)
    requires StepTo(env, s4, RestoreOps(actor)[4], s5)
    requires Looks(s1, map[], map["g" := Plain("g")]) && Looks(s4, map["f" := TOMBSTONE], map[])
    ensures Good(env, EMPTY) && Good(env, s1) && Good(env, s2) && Good(env, s3) && Good(env, s4)
    ensures Inv(env, s5) && !Loadable(env, s5)
  {
    hide StepTo, Attached, Inv, Loadable;
    EmptyIsGood(env);
    PlainAttached(env, Member(["g"], 1), map["g" := Plain("g")]);
    PlainAttached(env, TOMBSTONE.definition, map[]);
    assert TOMBSTONE.definition.groups[0] == "g";
    StepStaysGood(env, EMPTY, RestoreOps(actor)[0], s1);
    StepStaysGood(env, s1, RestoreOps(actor)[1], s2);
    StepStaysGood(env, s2, RestoreOps(actor)[2], s3);
    StepStaysGood(env, s3, RestoreOps(actor)[3], s4);
    StepStaysGood(env, s4, RestoreOps(actor)[4], s5);
  }

  // ---- One attachment too many ----

  /** As many attachments as a definition may have. */
  function Crowd(limits: Limits): (groups: seq<string>)
    ensures |groups| == limits.maxGroups && forall i :: 0 <= i < |groups| ==> groups[i] == "g"
  {
    seq(limits.maxGroups, _ => "g")
  }

  function AssignOps(limits: Limits, actor: string): (ops: seq<Op>) {
    [CreateGroup(Plain("g"), actor), CreateGroup(Plain("h"), actor), Create(Member(Crowd(limits), 1), actor),
     AssignGroup("f", "h", 1, actor)]
  }

  const BOTH: Groups := map["g" := Plain("g"), "h" := Plain("h")]

  lemma AssignLooks(env: Env, st: TenantState, d: Definition, gs: Groups, group: string, actor: string) returns (after: TenantState)
    requires Looks(st, map["f" := Record(d, false)], gs) && d.version == 1 && group in gs && group !in d.groups
    requires GroupsAccepted(env, map["f" := d.(groups := d.groups + [group])], gs)
    ensures StepTo(env, st, AssignGroup("f", group, 1, actor), after)
    ensures Looks(after, map["f" := Record(d.(groups := d.groups + [group], version := 2), false)], gs)
  {
    hide Logged, GroupsAccepted;
    assert Live(st.records)["f" := d.(groups := d.groups + [group])] == map["f" := d.(groups := d.groups + [group])];
    after := Perform(env, st, AssignGroup("f", group, 1, actor), NO_CHOICE).state;
  }

  lemma CrowdIsAccepted(env: Env)
    requires env.limits.maxKeyBytes >= 1 && env.limits.maxGroups >= 2
    ensures "h" !in Crowd(env.limits) && GroupsAccepted(env, map["f" := Member(Crowd(env.limits) + ["h"], 1)], BOTH)
  {
    BothArePlain();
    hide GroupsAccepted, AllPlain;
    PlainAccepted(env, map["f" := Member(Crowd(env.limits) + ["h"], 1)], BOTH);
  }

  lemma BothArePlain()
    ensures AllPlain(BOTH) && |BOTH| == 2 && BOTH.Keys == {"g", "h"}
    ensures AllPlain(map["g" := Plain("g")]) && BOTH == map["g" := Plain("g")]["h" := Plain("h")]
  {
    assert |BOTH| == |BOTH.Keys|;
  }

  /**
   * Attaching one more group to a feature that has as many as a definition may have: the attachment is checked, the
   * number is not, so the call succeeds and its document is stored if it fits and cannot be loaded.
   */
  lemma AssignedDocumentCanBeUnreadable(env: Env, size: Size, actor: string) returns (states: seq<TenantState>)
    requires env.limits.maxKeyBytes >= 1 && env.limits.maxGroups >= 2 && env.limits.maxFeatures >= 1
    ensures Succeeds(env, states, AssignOps(env.limits, actor))
    ensures (forall i :: 0 <= i < 4 ==> Good(env, states[i])) && StoredUnreadable(env, size, states[4])
  {
    hide StepTo, Good, StoredUnreadable, Attached, DocumentOf, Looks, AllPlain, Crowd, GroupsAccepted;
    LooksEmpty();
    BothArePlain();
    var s1 := CreateGroupLooks(env, EMPTY, map[], map[], "g", actor);
    var s2 := CreateGroupLooks(env, s1, map[], map["g" := Plain("g")], "h", actor);
    var s3 := CreateLooks(env, s2, BOTH, Crowd(env.limits), actor);
    CrowdIsAccepted(env);
    var s4 := AssignLooks(env, s3, Member(Crowd(env.limits), 1), BOTH, "h", actor);
    states := [EMPTY, s1, s2, s3, s4];
    AssignIsGood(env, s1, s2, s3, s4, actor);
    PlainIsWritten(map["f" := Record(Member(Crowd(env.limits) + ["h"], 2), false)], BOTH, s4);
    UnreadableIsStored(env, size, s4);
  }

  lemma AssignIsGood(env: Env, s1: TenantState, s2: TenantState, s3: TenantState, s4: TenantState, actor: string)
    requires StepTo(env, EMPTY, AssignOps(env.limits, actor)[0], s1) && StepTo(env, s1, AssignOps(env.limits, actor)[1], s2)
    requires StepTo(env, s2, AssignOps(env.limits, actor)[2], s3) && StepTo(env, s3, AssignOps(env.limits, actor)[3], s4)
    requires Looks(s2, map[], BOTH) && Looks(s3, map["f" := Record(Member(Crowd(env.limits), 1), false)], BOTH)
    ensures Good(env, EMPTY) && Good(env, s1) && Good(env, s2) && Good(env, s3)
    ensures Inv(env, s4) && !Loadable(env, s4)
  {
    hide StepTo, Attached, Inv, Loadable;
    EmptyIsGood(env);
    BothArePlain();
    PlainAttached(env, Member(Crowd(env.limits), 1), BOTH);
    StepStaysGood(env, EMPTY, AssignOps(env.limits, actor)[0], s1);
    StepStaysGood(env, s1, AssignOps(env.limits, actor)[1], s2);
    StepStaysGood(env, s2, AssignOps(env.limits, actor)[2], s3);
    StepStaysGood(env, s3, AssignOps(env.limits, actor)[3], s4);
  }
}
