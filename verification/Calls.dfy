/** What one management call does, from its own arguments: when it succeeds, what it stores, and when a stage falls due. */
module Calls {
  import opened Model
  import opened GroupForest
  import opened Tenant
  import opened TenantInvariant
  import opened TenantRuns

  // ---- Success ----

  /** The calls that touch one feature, group or stage. */
  predicate Single(op: Op) { !op.ApplyScheduled? && !op.Cleanup? && !op.ImportDocument? }

  /** The feature exists, is not deleted, and is at the version the caller expects. */
  predicate Current(st: TenantState, key: string, expected: nat) {
    key in st.records && !st.records[key].deleted && st.records[key].definition.version == expected
  }

  /** No live feature attaches the group and no group has it for parent. */
  predicate Unused(st: TenantState, group: string) {
    && (forall k :: k in st.records && !st.records[k].deleted ==> group !in st.records[k].definition.groups)
    && (forall k :: k in st.groups ==> st.groups[k].parent != group)
  }

  ghost predicate Admissible(env: Env, st: TenantState, op: Op, choice: Choice)
    requires Single(op)
  {
    match op
    case Create(d, _) => ValidDefinition(env, d) && d.key !in st.records && |st.records| < env.limits.maxFeatures
    case Update(d, expected, _) => ValidDefinition(env, d) && Current(st, d.key, expected)
    case Activate(key, expected, _) => Current(st, key, expected)
    case Deactivate(key, expected, _) => Current(st, key, expected)
    case Delete(key, expected, _) => Current(st, key, expected)
    case Restore(key, expected, _) => key in st.records && st.records[key].deleted && st.records[key].definition.version == expected
    case CreateGroup(g, _) =>
      g.key !in st.groups && GroupsAccepted(env, Live(st.records), st.groups[g.key := g.(version := 1)])
    case UpdateGroup(g, expected, _) =>
      && g.key in st.groups && st.groups[g.key].version == expected
      && GroupsAccepted(env, Live(st.records), st.groups[g.key := g.(version := expected + 1)])
    case DeleteGroup(key, expected, _) => key in st.groups && st.groups[key].version == expected && Unused(st, key)
    case AssignGroup(key, group, expected, _) =>
      && group in st.groups && Current(st, key, expected)
      && var d := st.records[key].definition;
         group in d.groups || GroupsAccepted(env, Live(st.records)[key := d.(groups := d.groups + [group])], st.groups)
    case RemoveGroup(key, group, expected, _) => Current(st, key, expected) && group in st.records[key].definition.groups
    case StageUpdate(d, expected, _, _) =>
      && ValidDefinition(env, d) && Current(st, d.key, expected) && |st.staged| < env.limits.maxStagedChanges
      && forall id :: id in st.staged ==> st.staged[id].definition.key != d.key
    case ApplyStage(id, _) =>
      && id in st.staged && Current(st, st.staged[id].definition.key, st.staged[id].expected)
      && var next := st.staged[id].definition.(version := st.staged[id].expected + 1);
         GraphOk(env, st.records[next.key := Record(next, false)], st.groups, choice.graphOrder)
  }

  lemma ApplySucceedsExactlyWhen(env: Env, st: TenantState, id: nat, actor: string, choice: Choice)
    ensures !Perform(env, st, ApplyStage(id, actor), choice).answer.Denied? <==> Admissible(env, st, ApplyStage(id, actor), choice)
  {
    hide GraphOk, LoggedAll;
    assert [id][..0] == [];
    assert ApplyEach(st.records, st.staged, []) == Applied(st.records, []);
    assert ApplyEach(st.records, st.staged, [id]) == ApplyOne(st.records, [], st.staged, id);
  }

  /** Each call on one feature, group or stage succeeds exactly under its conditions; otherwise nothing changes. */
  lemma CallsSucceedExactlyWhen(env: Env, st: TenantState, op: Op, choice: Choice)
    requires Single(op)
    ensures !Perform(env, st, op, choice).answer.Denied? <==> Admissible(env, st, op, choice)
    ensures Perform(env, st, op, choice).answer.Denied? ==> Perform(env, st, op, choice).state == st
  {
    hide ValidDefinition, GroupsAccepted, GraphOk, Logged;
    if op.ApplyStage? {
      hide Perform, Admissible;
      ApplySucceedsExactlyWhen(env, st, op.id, op.actor, choice);
    } else {
      hide ApplyEach, Live, Without, LoggedAll;
    }
    FailureIfDenied(env, st, op, choice);
  }

  lemma FailureIfDenied(env: Env, st: TenantState, op: Op, choice: Choice)
    ensures Perform(env, st, op, choice).answer.Denied? ==> Perform(env, st, op, choice).state == st
  {
    hide Perform;
    if Perform(env, st, op, choice).answer.Denied? { FailureChangesNothing(env, st, op, choice); }
  }

  // ---- Conflicts ----

  /** The version the call's expectation is compared with, where the call has one and what it names is there. */
  function Compared(st: TenantState, op: Op): (versions: Option<(nat, nat)>) {
    match op
    case Update(d, expected, _) => Beside(st, d.key, false, expected)
    case Activate(key, expected, _) => Beside(st, key, false, expected)
    case Deactivate(key, expected, _) => Beside(st, key, false, expected)
    case Delete(key, expected, _) => Beside(st, key, false, expected)
    case Restore(key, expected, _) => Beside(st, key, true, expected)
    case UpdateGroup(g, expected, _) => if g.key in st.groups then Some((st.groups[g.key].version, expected)) else None
    case DeleteGroup(key, expected, _) => if key in st.groups then Some((st.groups[key].version, expected)) else None
    case AssignGroup(key, group, expected, _) => if group in st.groups then Beside(st, key, false, expected) else None
    case RemoveGroup(key, _, expected, _) => Beside(st, key, false, expected)
    case StageUpdate(d, expected, _, _) => Beside(st, d.key, false, expected)
    case ApplyStage(id, _) => if id in st.staged then Beside(st, st.staged[id].definition.key, false, st.staged[id].expected) else None
    case _ => None
  }

  function Beside(st: TenantState, key: string, deleted: bool, expected: nat): (versions: Option<(nat, nat)>) {
    if key in st.records && st.records[key].deleted == deleted then Some((st.records[key].definition.version, expected)) else None
  }

  predicate Malformed(env: Env, op: Op) { (op.Create? || op.Update? || op.StageUpdate?) && !ValidDefinition(env, op.definition) }

  lemma ApplyConflictsExactlyWhen(env: Env, st: TenantState, id: nat, actor: string, choice: Choice)
    ensures var answer, compared := Perform(env, st, ApplyStage(id, actor), choice).answer, Compared(st, ApplyStage(id, actor));
            && (answer == Denied(VersionConflict, None) <==> compared.Some? && compared.value.0 != compared.value.1)
            && (answer == Denied(NotFound, None) <==> compared == None)
  {
    hide GraphOk, LoggedAll;
    assert [id][..0] == [];
    assert ApplyEach(st.records, st.staged, []) == Applied(st.records, []);
    assert ApplyEach(st.records, st.staged, [id]) == ApplyOne(st.records, [], st.staged, id);
  }

  /**
   * A well-formed call is told of a version conflict exactly when what it names is there at another version, and that
   * it is not found exactly when it is not there; only removing an unattached group is besides also not found.
   */
  lemma ConflictsAreReportedExactlyWhen(env: Env, st: TenantState, op: Op, choice: Choice)
    requires Single(op) && !Malformed(env, op) && !op.Create? && !op.CreateGroup?
    ensures var answer, compared := Perform(env, st, op, choice).answer, Compared(st, op);
            && (answer == Denied(VersionConflict, None) <==> compared.Some? && compared.value.0 != compared.value.1)
            && (answer == Denied(NotFound, None) <==>
                  || compared == None
                  || (op.RemoveGroup? && compared.value.0 == compared.value.1 && op.groupKey !in st.records[op.key].definition.groups))
  {
    hide ValidDefinition, GroupsAccepted, GraphOk, Logged;
    if op.ApplyStage? {
      hide Perform, Compared;
      ApplyConflictsExactlyWhen(env, st, op.id, op.actor, choice);
    } else {
      hide ApplyEach, Live, Without, LoggedAll, HasStage, GroupUsed;
    }
  }

  // ---- Content ----

  /** The call answers `answer` and leaves `next`, with one more entry in the audit log. */
  ghost predicate Leaves(limits: Limits, st: TenantState, e: Effect, answer: Answer, next: TenantState, entry: AuditEntry) {
    e.answer == answer && e.state == next.(audit := e.state.audit) && Audited(limits, st.audit, entry, e.state.audit)
  }

  /** What a successful call made that replaced no record. */
  ghost predicate Made(limits: Limits, st: TenantState, op: Op, e: Effect) {
    match op
    case Create(d, actor) =>
      var stored := d.(version := 1);
      Leaves(limits, st, e, Feature(stored), st.(records := st.records[d.key := Record(stored, false)]),
             AuditEntry(d.key, CreateAction, actor, 1))
    case CreateGroup(g, actor) =>
      var stored := g.(version := 1);
      Leaves(limits, st, e, GroupIs(stored), st.(groups := st.groups[g.key := stored]), AuditEntry(g.key, GroupCreateAction, actor, 1))
    case UpdateGroup(g, expected, actor) =>
      var stored := g.(version := expected + 1);
      Leaves(limits, st, e, GroupIs(stored), st.(groups := st.groups[g.key := stored]),
             AuditEntry(g.key, GroupUpdateAction, actor, expected + 1))
    case DeleteGroup(key, expected, actor) =>
      && key in st.groups
      && Leaves(limits, st, e, GroupIs(st.groups[key].(version := expected + 1)), st.(groups := st.groups - {key}),
                AuditEntry(key, GroupDeleteAction, actor, expected + 1))
    case AssignGroup(key, _, _, _) => key in st.records && e == Effect(st, Feature(st.records[key].definition))
    case StageUpdate(d, expected, applyAt, actor) =>
      var change := StagedChange(st.nextStage + 1, d, expected, applyAt, actor);
      && change.id !in st.staged
      && Leaves(limits, st, e, Stage(change), st.(staged := st.staged[change.id := change], nextStage := change.id),
                AuditEntry(d.key, StageAction, actor, expected))
    case _ => false
  }

  lemma NextIsFresh(env: Env, st: TenantState)
    requires Inv(env, st)
    ensures st.nextStage + 1 !in st.staged
  {
    forall id | id in st.staged ensures id != st.nextStage + 1 { assert StageOk(st.records, st.nextStage, id, st.staged[id]); }
  }

  lemma StoredLeaves(limits: Limits, st: TenantState, key: string, record: Record, action: Action, actor: string, answer: Answer)
    ensures Leaves(limits, st, Effect(Stored(limits, st, key, record, action, actor), answer), answer,
                   st.(records := st.records[key := record]), AuditEntry(key, action, actor, record.definition.version))
  {
    hide Logged, Audited;
    LoggedIsAudited(limits, st.audit, AuditEntry(key, action, actor, record.definition.version));
  }

  lemma GroupStoredLeaves(limits: Limits, st: TenantState, g: Group, action: Action, actor: string, answer: Answer)
    ensures Leaves(limits, st, Effect(GroupStored(limits, st, g, action, actor), answer), answer,
                   st.(groups := st.groups[g.key := g]), AuditEntry(g.key, action, actor, g.version))
  {
    hide Logged, Audited;
    LoggedIsAudited(limits, st.audit, AuditEntry(g.key, action, actor, g.version));
  }

  lemma GroupErasedLeaves(limits: Limits, st: TenantState, key: string, version: nat, actor: string, answer: Answer)
    ensures Leaves(limits, st, Effect(GroupErased(limits, st, key, version, actor), answer), answer,
                   st.(groups := st.groups - {key}), AuditEntry(key, GroupDeleteAction, actor, version))
  {
    hide Logged, Audited;
    LoggedIsAudited(limits, st.audit, AuditEntry(key, GroupDeleteAction, actor, version));
  }

  lemma CreatedAsAsked(env: Env, st: TenantState, d: Definition, actor: string)
    ensures var e := Created(env, st, d, actor); e.answer.Denied? || Made(env.limits, st, Create(d, actor), e)
  {
    hide ValidDefinition, Stored, Leaves;
    StoredLeaves(env.limits, st, d.key, Record(d.(version := 1), false), CreateAction, actor, Feature(d.(version := 1)));
  }

  lemma GroupCreatedAsAsked(env: Env, st: TenantState, g: Group, actor: string)
    ensures var e := GroupCreated(env, st, g, actor); e.answer.Denied? || Made(env.limits, st, CreateGroup(g, actor), e)
  {
    hide GroupsAccepted, GroupStored, Leaves;
    GroupStoredLeaves(env.limits, st, g.(version := 1), GroupCreateAction, actor, GroupIs(g.(version := 1)));
  }

  lemma GroupUpdatedAsAsked(env: Env, st: TenantState, g: Group, expected: nat, actor: string)
    ensures var e := GroupUpdated(env, st, g, expected, actor);
            e.answer.Denied? || Made(env.limits, st, UpdateGroup(g, expected, actor), e)
  {
    hide GroupsAccepted, GroupStored, Leaves;
    var stored := g.(version := expected + 1);
    GroupStoredLeaves(env.limits, st, stored, GroupUpdateAction, actor, GroupIs(stored));
  }

  lemma GroupDeletedAsAsked(env: Env, st: TenantState, key: string, expected: nat, actor: string)
    ensures var e := GroupDeleted(env, st, key, expected, actor);
            e.answer.Denied? || Made(env.limits, st, DeleteGroup(key, expected, actor), e)
  {
    hide GroupUsed, GroupErased, Leaves;
    if key in st.groups {
      GroupErasedLeaves(env.limits, st, key, expected + 1, actor, GroupIs(st.groups[key].(version := expected + 1)));
    }
  }

  lemma StagedAsAsked(env: Env, st: TenantState, d: Definition, expected: nat, applyAt: int, actor: string)
    requires st.nextStage + 1 !in st.staged
    ensures var e := StagedUpdate(env, st, d, expected, applyAt, actor);
            e.answer.Denied? || Made(env.limits, st, StageUpdate(d, expected, applyAt, actor), e)
  {
    hide ValidDefinition, HasStage, Logged, Audited;
    LoggedIsAudited(env.limits, st.audit, AuditEntry(d.key, StageAction, actor, expected));
  }

  lemma AttachedStays(env: Env, st: TenantState, op: Op, choice: Choice)
    requires op.AssignGroup? && WriteOf(st, op) == None && !Perform(env, st, op, choice).answer.Denied?
    ensures Made(env.limits, st, op, Perform(env, st, op, choice))
  {
    hide GroupsAccepted, Logged;
  }

  lemma MadeAsAsked(env: Env, st: TenantState, op: Op, choice: Choice)
    requires st.nextStage + 1 !in st.staged
    requires Single(op) && WriteOf(st, op) == None && !Perform(env, st, op, choice).answer.Denied?
    ensures Made(env.limits, st, op, Perform(env, st, op, choice))
  {
    hide Made, Created, GroupCreated, GroupUpdated, GroupDeleted, StagedUpdate, StageApplied, GroupAssigned;
    match op
    case ApplyStage(id, actor) => UnstagedIsDenied(env, st, id, actor, choice);
    case Create(d, actor) => CreatedAsAsked(env, st, d, actor);
    case StageUpdate(d, expected, applyAt, actor) => StagedAsAsked(env, st, d, expected, applyAt, actor);
    case AssignGroup(_, _, _, _) => AttachedStays(env, st, op, choice);
    case CreateGroup(g, actor) => GroupCreatedAsAsked(env, st, g, actor);
    case UpdateGroup(g, expected, actor) => GroupUpdatedAsAsked(env, st, g, expected, actor);
    case DeleteGroup(key, expected, actor) => GroupDeletedAsAsked(env, st, key, expected, actor);
  }

  lemma UnstagedIsDenied(env: Env, st: TenantState, id: nat, actor: string, choice: Choice)
    requires id !in st.staged
    ensures Perform(env, st, ApplyStage(id, actor), choice).answer.Denied?
  {
    ApplySucceedsExactlyWhen(env, st, id, actor, choice);
    hide Perform;
  }

  lemma WritesAnswerAFeature(env: Env, st: TenantState, op: Op, choice: Choice)
    requires WriteOf(st, op).Some? && !Perform(env, st, op, choice).answer.Denied?
    ensures Perform(env, st, op, choice).answer.Feature?
  {
    hide ValidDefinition, GroupsAccepted, GraphOk, Logged, LoggedAll, Without;
  }

  /**
   * Every successful call stores what it was asked to, apart from the version, answers it, logs it under the caller's
   * name, and touches nothing else: a replaced record as `Optimistic` says, anything else as `Made` says.
   */
  lemma CallsStoreWhatWasAsked(env: Env, st: TenantState, op: Op, choice: Choice)
    requires Inv(env, st) && Single(op) && !Perform(env, st, op, choice).answer.Denied?
    ensures if WriteOf(st, op).Some? then Optimistic(env, st, op, Perform(env, st, op, choice))
            else Made(env.limits, st, op, Perform(env, st, op, choice))
  {
    NextIsFresh(env, st);
    hide Inv, ValidDefinition, GroupsAccepted, GraphOk, Logged, Optimistic, Audited;
    if WriteOf(st, op).Some? {
      hide Perform;
      WritesAnswerAFeature(env, st, op, choice);
      WritesAreOptimistic(env, st, op, choice);
    } else {
      hide Perform, Made;
      MadeAsAsked(env, st, op, choice);
    }
  }

  // ---- Schedules ----

  /** A stage that is not due is left as it was, and so is its feature's record. */
  lemma NotDueIsLeft(env: Env, st: TenantState, now: int, actor: string, choice: Choice, id: nat)
    requires Inv(env, st) && Perform(env, st, ApplyScheduled(now, actor), choice).answer.Features?
    requires id in st.staged && !Due(st.staged[id], now) && st.staged[id].definition.key in st.records
    ensures var after, key := Perform(env, st, ApplyScheduled(now, actor), choice).state, st.staged[id].definition.key;
            && id in after.staged && after.staged[id] == st.staged[id]
            && key in after.records && after.records[key] == st.records[key]
  {
    hide GroupsWellFormed, StagesOk, RecordsKeyed, DueIds, GraphOk, ApplyEach, StagesApplied;
    if now != 0 && DueIds(st, now) != [] {
      hide Perform;
      ScheduledIsAllOrNothing(env, st, now, actor, choice);
      DueIdsAre(st, now);
      BatchClosedForm(st.records, st.staged, DueIds(st, now));
      assert forall x :: x in DueIds(st, now) ==> st.staged[x].definition.key != st.staged[id].definition.key;
    }
  }

  /**
   * A change staged by `StageUpdate(d, expected, applyAt, actor)` is pending with exactly these arguments. While it
   * is, every successful scheduled application at `now` applies it when `applyAt` is set and has come, leaving the
   * caller's definition at the next version in the place of the very record it was staged against, and otherwise
   * leaves both the change and the record alone.
   */
  lemma StagesAreAppliedOnTime(env: Env, r: Run, i: nat, j: nat, change: StagedChange, seen: Record)
    requires IsRun(env, r) && StagedAt(env, r, i, change, seen) && i < j < |r.ops| && change.id in r.states[j].staged
    requires r.ops[j].ApplyScheduled? && AnswerAt(env, r, j).Features?
    ensures var staging, now, before, after := r.ops[i], r.ops[j].now, r.states[j], r.states[j + 1];
            var d := staging.definition;
            && change == StagedChange(change.id, d, staging.expected, staging.applyAt, staging.actor)
            && before.staged[change.id] == change && d.key in before.records && d.key in after.records
            && (staging.applyAt != 0 && now >= staging.applyAt ==>
                  && before.records[d.key] == seen && change.id !in after.staged
                  && after.records[d.key] == Record(d.(version := staging.expected + 1), false))
            && (staging.applyAt == 0 || now < staging.applyAt ==>
                  && change.id in after.staged && after.staged[change.id] == change
                  && after.records[d.key] == before.records[d.key])
  {
    hide Inv, Evolves, Perform, StepAt;
    StagingWitnesses(env, r, i, change, seen);
    RunEvolves(env, r);
    PendingStageSeesItsRecord(env, r.states, i + 1, j, change, seen);
    RunKeepsInv(env, r, j);
    StepIs(env, r, j);
    var now := r.ops[j].now;
    if Due(change, now) {
      AppliedStageReplacesWhatItSaw(env, r, i, j, j + 1, change, seen);
    } else {
      NotDueIsLeft(env, r.states[j], now, r.ops[j].actor, r.choices[j], change.id);
    }
  }

  lemma StepIs(env: Env, r: Run, j: nat)
    requires IsRun(env, r) && j < |r.ops|
    ensures r.states[j + 1] == Perform(env, r.states[j], r.ops[j], r.choices[j]).state
    ensures AnswerAt(env, r, j) == Perform(env, r.states[j], r.ops[j], r.choices[j]).answer
  {
    hide Perform, Inv;
    assert StepAt(env, r, j);
  }
}
