/** Safety over whole runs of management calls: staged changes, batches and imports. */
module TenantRuns {
  import opened Ordering
  import opened Keyed
  import opened Model
  import opened GroupForest
  import opened Evaluator
  import opened Portable
  import opened Tenant
  import opened TenantInvariant

  // ---- Runs ----

  datatype Run = Run(states: seq<TenantState>, ops: seq<Op>, choices: seq<Choice>)

  ghost predicate IsRun(env: Env, r: Run) {
    && |r.states| == |r.ops| + 1 == |r.choices| + 1 && Inv(env, r.states[0])
    && forall i :: 0 <= i < |r.ops| ==> StepAt(env, r, i)
  }

  ghost predicate StepAt(env: Env, r: Run, i: nat)
    requires |r.states| == |r.ops| + 1 == |r.choices| + 1 && i < |r.ops|
  {
    r.states[i + 1] == Perform(env, r.states[i], r.ops[i], r.choices[i]).state
  }

  ghost function AnswerAt(env: Env, r: Run, i: nat): (a: Answer)
    requires IsRun(env, r) && i < |r.ops|
  {
    Perform(env, r.states[i], r.ops[i], r.choices[i]).answer
  }

  /** Every reachable state keeps the forest, the bounds and the link between stages and records. */
  lemma {:induction false} RunKeepsInv(env: Env, r: Run, i: nat)
    requires IsRun(env, r) && i < |r.states|
    ensures Inv(env, r.states[i])
  {
    hide Inv, Perform;
    if i > 0 {
      RunKeepsInv(env, r, i - 1);
      assert StepAt(env, r, i - 1);
      PerformKeeps(env, r.states[i - 1], r.ops[i - 1], r.choices[i - 1]);
    }
  }

  // ---- Evolutions ----

  ghost predicate EvolvesAt(states: seq<TenantState>, i: nat)
    requires i + 1 < |states|
  {
    Evolves(states[i], states[i + 1])
  }

  /** A history of one tenant's state, in memory or stored: every state keeps the invariant and evolves into the next. */
  ghost predicate Evolution(env: Env, states: seq<TenantState>) {
    && (forall i :: 0 <= i < |states| ==> Inv(env, states[i]))
    && (forall i :: 0 <= i < |states| - 1 ==> EvolvesAt(states, i))
  }

  lemma RunEvolves(env: Env, r: Run)
    requires IsRun(env, r)
    ensures Evolution(env, r.states)
  {
    hide Inv, Perform, Evolves;
    forall i | 0 <= i < |r.states| ensures Inv(env, r.states[i]) { RunKeepsInv(env, r, i); }
    forall i | 0 <= i < |r.states| - 1 ensures EvolvesAt(r.states, i) {
      assert StepAt(env, r, i);
      PerformKeeps(env, r.states[i], r.ops[i], r.choices[i]);
    }
  }

  // ---- Stage identities ----

  lemma {:induction false} NextStageGrows(env: Env, states: seq<TenantState>, i: nat, j: nat)
    requires Evolution(env, states) && i <= j < |states|
    ensures states[i].nextStage <= states[j].nextStage
    decreases j
  {
    hide Inv;
    if i < j {
      NextStageGrows(env, states, i, j - 1);
      assert EvolvesAt(states, j - 1);
    }
  }

  /** An identity already issued and no longer pending never becomes pending again. */
  lemma {:induction false} IdentitiesNeverReturn(env: Env, states: seq<TenantState>, i: nat, j: nat, id: nat)
    requires Evolution(env, states) && i <= j < |states| && id <= states[i].nextStage && id !in states[i].staged
    ensures id !in states[j].staged
    decreases j
  {
    hide Inv, Newer;
    if i < j {
      IdentitiesNeverReturn(env, states, i, j - 1, id);
      NextStageGrows(env, states, i, j - 1);
      assert EvolvesAt(states, j - 1);
    }
  }

  // ---- What a pending stage still knows ----

  /** The record is newer than when staged, or it is the very record that was seen. */
  ghost predicate Witnessed(st: TenantState, change: StagedChange, seen: Record) {
    && change.id in st.staged && st.staged[change.id] == change
    && change.definition.key in st.records
    && var now := st.records[change.definition.key];
       now == seen || now.definition.version > change.expected
  }

  lemma WitnessStep(env: Env, before: TenantState, after: TenantState, change: StagedChange, seen: Record)
    requires Inv(env, before) && Inv(env, after) && Evolves(before, after)
    requires Witnessed(before, change, seen) && seen.definition.version == change.expected && change.id in after.staged
    ensures Witnessed(after, change, seen)
  {
    hide GroupsWellFormed, RecordsKeyed, OnePerKey;
    assert StageOk(before.records, before.nextStage, change.id, change);
    assert StageOk(after.records, after.nextStage, change.id, after.staged[change.id]);
  }

  /**
   * No stale application through reuse of a version: as long as a stage is pending, its feature's record is
   * either exactly the one it was staged against or carries a later version. In particular a purge and a fresh
   * creation in between cannot bring the expected version back under the stage.
   */
  lemma {:induction false} PendingStageSeesItsRecord(
    env: Env, states: seq<TenantState>, i: nat, j: nat, change: StagedChange, seen: Record)
    requires Evolution(env, states) && i <= j < |states| && change.id in states[j].staged
    requires Witnessed(states[i], change, seen) && seen.definition.version == change.expected && change.id <= states[i].nextStage
    ensures Witnessed(states[j], change, seen)
    decreases j
  {
    hide Inv, Evolves, Witnessed;
    if i < j {
      NextStageGrows(env, states, i, j - 1);
      if change.id !in states[j - 1].staged { IdentitiesNeverReturn(env, states, j - 1, j, change.id); }
      PendingStageSeesItsRecord(env, states, i, j - 1, change, seen);
      assert EvolvesAt(states, j - 1);
      WitnessStep(env, states[j - 1], states[j], change, seen);
    }
  }

  /** The i-th call staged `change` against the record `seen`. */
  ghost predicate StagedAt(env: Env, r: Run, i: nat, change: StagedChange, seen: Record)
    requires IsRun(env, r)
  {
    && i < |r.ops| && r.ops[i].StageUpdate? && AnswerAt(env, r, i) == Stage(change)
    && change.definition.key in r.states[i].records && r.states[i].records[change.definition.key] == seen
  }

  lemma StagingSees(env: Env, st: TenantState, op: Op, choice: Choice, change: StagedChange)
    requires op.StageUpdate? && Perform(env, st, op, choice).answer == Stage(change)
    ensures change.definition.key in st.records
    ensures var after, seen := Perform(env, st, op, choice).state, st.records[change.definition.key];
            && Witnessed(after, change, seen) && after.records == st.records
            && seen.definition.version == change.expected && !seen.deleted
            && change.id == st.nextStage + 1 == after.nextStage
    ensures change.definition == op.definition && change.expected == op.expected
    ensures change.applyAt == op.applyAt && change.actor == op.actor
  {
    hide ValidDefinition, Logged, HasStage;
  }

  lemma StagingWitnesses(env: Env, r: Run, i: nat, change: StagedChange, seen: Record)
    requires IsRun(env, r) && StagedAt(env, r, i, change, seen)
    ensures Witnessed(r.states[i + 1], change, seen) && seen.definition.version == change.expected && !seen.deleted
    ensures change.id == r.states[i].nextStage + 1 == r.states[i + 1].nextStage
    ensures change == StagedChange(change.id, r.ops[i].definition, r.ops[i].expected, r.ops[i].applyAt, r.ops[i].actor)
  {
    hide Inv, Perform, Witnessed;
    assert StepAt(env, r, i);
    StagingSees(env, r.states[i], r.ops[i], r.choices[i], change);
  }

  lemma ApplyingReplaces(env: Env, st: TenantState, id: nat, actor: string, choice: Choice)
    requires Perform(env, st, ApplyStage(id, actor), choice).answer.Feature?
    ensures id in st.staged && IsLive(st, st.staged[id].definition.key)
    ensures var change, after := st.staged[id], Perform(env, st, ApplyStage(id, actor), choice).state;
            var key, next := change.definition.key, change.definition.(version := change.expected + 1);
            && st.records[key].definition.version == change.expected
            && after.records == st.records[key := Record(next, false)] && after.staged == st.staged - {id}
            && after.groups == st.groups && after.nextStage == st.nextStage
            && Perform(env, st, ApplyStage(id, actor), choice).answer == Feature(next)
  {
    hide GraphOk, LoggedAll;
    assert [id][..0] == [];
    assert ApplyEach(st.records, st.staged, []) == Applied(st.records, []);
    assert ApplyEach(st.records, st.staged, [id]) == ApplyOne(st.records, [], st.staged, id);
    assert (set x | x in [id]) == {id};
  }

  // ---- Optimistic concurrency ----

  datatype Write = Write(key: string, expected: nat)

  /** The calls that replace one existing record at an expected version. Attaching an attached group replaces none. */
  function WriteOf(st: TenantState, op: Op): (w: Option<Write>) {
    match op
    case Update(d, expected, _) => Some(Write(d.key, expected))
    case Activate(key, expected, _) => Some(Write(key, expected))
    case Deactivate(key, expected, _) => Some(Write(key, expected))
    case Delete(key, expected, _) => Some(Write(key, expected))
    case Restore(key, expected, _) => Some(Write(key, expected))
    case AssignGroup(key, group, expected, _) =>
      if key in st.records && group in st.records[key].definition.groups then None else Some(Write(key, expected))
    case RemoveGroup(key, _, expected, _) => Some(Write(key, expected))
    case ApplyStage(id, _) =>
      if id in st.staged then Some(Write(st.staged[id].definition.key, st.staged[id].expected)) else None
    case _ => None
  }

  /** The entry is the newest, and where the log was full the oldest has gone. */
  ghost predicate Audited(limits: Limits, before: seq<AuditEntry>, entry: AuditEntry, after: seq<AuditEntry>) {
    && |after| == (if |before| < limits.maxAuditEntries then |before| + 1 else limits.maxAuditEntries)
    && after == (before + [entry])[|before| + 1 - |after|..]
  }

  lemma LoggedIsAudited(limits: Limits, audit: seq<AuditEntry>, entry: AuditEntry)
    ensures Audited(limits, audit, entry, Logged(limits, audit, entry))
  {
  }

  /** What a write stores, from its own arguments and the record it replaces. */
  function Content(st: TenantState, op: Op): (d: Definition)
    requires WriteOf(st, op).Some? && WriteOf(st, op).value.key in st.records
  {
    var was := st.records[WriteOf(st, op).value.key].definition;
    match op
    case Update(d, expected, _) => d.(version := expected + 1)
    case Activate(_, expected, _) => was.(lifecycle := Active, version := expected + 1)
    case Deactivate(_, expected, _) => was.(lifecycle := Inactivated, version := expected + 1)
    case Delete(_, expected, _) => was.(lifecycle := Archived, version := expected + 1)
    case Restore(_, expected, _) => was.(lifecycle := Inactivated, version := expected + 1)
    case AssignGroup(_, group, expected, _) => was.(groups := was.groups + [group], version := expected + 1)
    case RemoveGroup(_, group, expected, _) => was.(groups := Without(was.groups, group), version := expected + 1)
    case ApplyStage(id, _) => st.staged[id].definition.(version := st.staged[id].expected + 1)
  }

  /** What a write is logged as. */
  function WriteAction(op: Op): (a: Action) {
    match op
    case Activate(_, _, _) => ActivateAction
    case Deactivate(_, _, _) => DeactivateAction
    case Delete(_, _, _) => DeleteAction
    case Restore(_, _, _) => RestoreAction
    case AssignGroup(_, _, _, _) => AssignAction
    case RemoveGroup(_, _, _, _) => RemoveAction
    case ApplyStage(_, _) => ApplyAction
    case _ => UpdateAction
  }

  /** The only stage a write can end is the one it applies. */
  function StagesAfter(st: TenantState, op: Op): (staged: map<nat, StagedChange>) {
    if op.ApplyStage? then st.staged - {op.id} else st.staged
  }

  lemma AppliedIsAudited(env: Env, st: TenantState, id: nat, actor: string, choice: Choice)
    requires Perform(env, st, ApplyStage(id, actor), choice).answer.Feature? && id in st.staged
    ensures var change := st.staged[id];
            Audited(env.limits, st.audit, AuditEntry(change.definition.key, ApplyAction, actor, change.expected + 1),
                    Perform(env, st, ApplyStage(id, actor), choice).state.audit)
  {
    hide GraphOk, Audited, Logged;
    assert [id][..0] == [];
    assert ApplyEach(st.records, st.staged, []) == Applied(st.records, []);
    var results := ApplyEach(st.records, st.staged, [id]).results;
    assert results == [st.staged[id].definition.(version := st.staged[id].expected + 1)];
    var entries := Each(ApplyEntry(actor), results);
    assert entries[..0] == [] && LoggedAll(env.limits, st.audit, entries) == Logged(env.limits, st.audit, entries[0]);
    LoggedIsAudited(env.limits, st.audit, entries[0]);
  }

  /**
   * The write saw the expected version, stored what was asked at the next, answered it, logged it under the caller's
   * name, and touched nothing else.
   */
  ghost predicate Optimistic(env: Env, st: TenantState, op: Op, e: Effect)
    requires WriteOf(st, op).Some?
  {
    var w := WriteOf(st, op).value;
    && w.key in st.records && st.records[w.key].definition.version == w.expected && (st.records[w.key].deleted <==> op.Restore?)
    && Content(st, op).version == w.expected + 1 && e.answer == Feature(Content(st, op))
    && e.state == st.(records := st.records[w.key := Record(Content(st, op), op.Delete?)],
                      audit := e.state.audit, staged := StagesAfter(st, op))
    && Audited(env.limits, st.audit, AuditEntry(w.key, WriteAction(op), op.actor, w.expected + 1), e.state.audit)
  }

  lemma ContentIsNext(st: TenantState, op: Op)
    requires WriteOf(st, op).Some? && WriteOf(st, op).value.key in st.records
    ensures Content(st, op).version == WriteOf(st, op).value.expected + 1
  {
    hide Without;
  }

  lemma StoredIsAudited(limits: Limits, st: TenantState, key: string, record: Record, action: Action, actor: string)
    ensures var r := Stored(limits, st, key, record, action, actor);
            && r == st.(records := st.records[key := record], audit := r.audit, staged := st.staged)
            && Audited(limits, st.audit, AuditEntry(key, action, actor, record.definition.version), r.audit)
  {
    hide Audited, Logged;
    LoggedIsAudited(limits, st.audit, AuditEntry(key, action, actor, record.definition.version));
  }

  lemma StoredIsOptimistic(env: Env, st: TenantState, op: Op)
    requires WriteOf(st, op).Some? && !op.ApplyStage?
    requires var w := WriteOf(st, op).value;
             && w.key in st.records && st.records[w.key].definition.version == w.expected
             && (st.records[w.key].deleted <==> op.Restore?)
    ensures Optimistic(env, st, op,
                       var d := Content(st, op);
                       Effect(Stored(env.limits, st, WriteOf(st, op).value.key, Record(d, op.Delete?), WriteAction(op), op.actor),
                              Feature(d)))
  {
    assert !op.Cleanup? && StagesAfter(st, op) == st.staged;
    hide Audited, Stored, Content, WriteAction, StagesAfter, WriteOf;
    ContentIsNext(st, op);
    StoredIsAudited(env.limits, st, WriteOf(st, op).value.key, Record(Content(st, op), op.Delete?), WriteAction(op), op.actor);
  }

  lemma AppliedIsOptimistic(env: Env, st: TenantState, id: nat, actor: string, choice: Choice)
    requires id in st.staged && Perform(env, st, ApplyStage(id, actor), choice).answer.Feature?
    ensures Optimistic(env, st, ApplyStage(id, actor), Perform(env, st, ApplyStage(id, actor), choice))
  {
    hide Perform, Audited;
    ApplyingReplaces(env, st, id, actor, choice);
    AppliedIsAudited(env, st, id, actor, choice);
  }

  lemma WritesAreOptimistic(env: Env, st: TenantState, op: Op, choice: Choice)
    requires WriteOf(st, op).Some? && Perform(env, st, op, choice).answer.Feature?
    ensures Optimistic(env, st, op, Perform(env, st, op, choice))
  {
    hide ValidDefinition, GroupsAccepted, Optimistic, Stored;
    if op.ApplyStage? {
      hide Perform;
      AppliedIsOptimistic(env, st, op.id, op.actor, choice);
    } else {
      StoredIsOptimistic(env, st, op);
    }
  }

  lemma {:induction false} VersionsGrowWhilePresent(env: Env, states: seq<TenantState>, i: nat, j: nat, key: string)
    requires Evolution(env, states) && i <= j < |states| && forall m :: i <= m <= j ==> key in states[m].records
    ensures states[i].records[key].definition.version <= states[j].records[key].definition.version
    decreases j
  {
    hide Inv;
    if i < j {
      VersionsGrowWhilePresent(env, states, i, j - 1, key);
      assert EvolvesAt(states, j - 1);
    }
  }

  /** The i-th step puts another record in the place of this one. */
  ghost predicate ReplacedAt(states: seq<TenantState>, i: nat, key: string, version: nat) {
    && i + 1 < |states| && key in states[i].records && states[i].records[key].definition.version == version
    && key in states[i + 1].records && states[i + 1].records[key] != states[i].records[key]
  }

  /**
   * No lost updates: each version of a record is replaced at most once, by whatever calls (updates, stages alone or
   * in batches, imports), unless the record was purged in between.
   */
  lemma VersionsAreReplacedOnce(env: Env, states: seq<TenantState>, i: nat, j: nat, key: string, version: nat)
    requires Evolution(env, states) && i < j && ReplacedAt(states, i, key, version) && ReplacedAt(states, j, key, version)
    ensures exists m :: i < m < j && key !in states[m].records
  {
    hide Inv;
    if forall m :: i < m < j ==> key in states[m].records {
      assert EvolvesAt(states, i);
      VersionsGrowWhilePresent(env, states, i + 1, j, key);
    }
  }

  /** Two writes that expected the same version of a feature cannot both have succeeded, unless it was purged in between. */
  lemma SameVersionWritesNeedAPurge(env: Env, r: Run, i: nat, j: nat, w: Write)
    requires IsRun(env, r) && i < j < |r.ops| && WriteOf(r.states[i], r.ops[i]) == WriteOf(r.states[j], r.ops[j]) == Some(w)
    requires AnswerAt(env, r, i).Feature? && AnswerAt(env, r, j).Feature?
    ensures exists m :: i < m < j && w.key !in r.states[m].records
  {
    hide Inv, Perform, WriteOf, Audited, Evolves;
    assert StepAt(env, r, i) && StepAt(env, r, j);
    WritesAreOptimistic(env, r.states[i], r.ops[i], r.choices[i]);
    WritesAreOptimistic(env, r.states[j], r.ops[j], r.choices[j]);
    RunEvolves(env, r);
    VersionsAreReplacedOnce(env, r.states, i, j, w.key, w.expected);
  }

  /** Deleting and restoring gives the feature back, inactive and two versions on; in between it is not live. */
  lemma DeleteThenRestore(env: Env, st: TenantState, key: string, version: nat, actor: string, choice: Choice)
    requires IsLive(st, key) && st.records[key].definition.version == version
    ensures var gone := Perform(env, st, Delete(key, version, actor), choice).state;
            var back := Perform(env, gone, Restore(key, version + 1, actor), choice).state;
            && key !in Live(gone.records) && gone.records[key].definition.lifecycle == Archived
            && back.records
               == st.records[key := Record(st.records[key].definition.(lifecycle := Inactivated, version := version + 2), false)]
  {
  }

  /** Removal goes through the list one attachment at a time and keeps the order of what stays. */
  lemma {:induction false} WithoutConcat(a: seq<string>, b: seq<string>, group: string)
    ensures Without(a + b, group) == Without(a, group) + Without(b, group)
  {
    if a == [] {
      assert a + b == b;
    } else {
      assert (a + b)[0] == a[0] && (a + b)[1..] == a[1..] + b;
      WithoutConcat(a[1..], b, group);
      WithoutFirst(a, group);
      WithoutFirst(a + b, group);
    }
  }

  lemma WithoutFirst(groups: seq<string>, group: string)
    requires groups != []
    ensures Without(groups, group) == (if groups[0] == group then [] else [groups[0]]) + Without(groups[1..], group)
  {
  }

  lemma {:induction false} WithoutAbsent(groups: seq<string>, group: string)
    requires group !in groups
    ensures Without(groups, group) == groups
  {
    if groups != [] { WithoutAbsent(groups[1..], group); }
  }

  lemma WithoutAppended(groups: seq<string>, group: string)
    requires group !in groups
    ensures Without(groups + [group], group) == groups
  {
    WithoutConcat(groups, [group], group);
    WithoutFirst([group], group);
    WithoutAbsent(groups, group);
  }

  /** Removing a group that was just attached restores the attachment list, order included. */
  lemma AssignThenRemove(env: Env, st: TenantState, key: string, group: string, version: nat, actor: string, choice: Choice)
    requires IsLive(st, key) && group !in st.records[key].definition.groups
    requires Perform(env, st, AssignGroup(key, group, version, actor), choice).answer.Feature?
    ensures var attached := Perform(env, st, AssignGroup(key, group, version, actor), choice).state;
            var back := Perform(env, attached, RemoveGroup(key, group, version + 1, actor), choice);
            && back.answer.Feature?
            && back.state.records == st.records[key := Record(st.records[key].definition.(version := version + 2), false)]
  {
    hide GroupsAccepted, Logged;
    WithoutAppended(st.records[key].definition.groups, group);
  }

  // ---- Batches ----

  predicate Ready(records: map<string, Record>, staged: map<nat, StagedChange>, id: nat) {
    && id in staged && staged[id].definition.key in records
    && var record := records[staged[id].definition.key];
       !record.deleted && record.definition.version == staged[id].expected
  }

  function Outcome(change: StagedChange): (d: Definition) { change.definition.(version := change.expected + 1) }

  /** The records with every listed change made, described key by key. */
  ghost predicate BatchMade(
    before: map<string, Record>, staged: map<nat, StagedChange>, ids: seq<nat>, after: map<string, Record>)
    requires forall id :: id in ids ==> id in staged
  {
    && after.Keys == before.Keys
    && (forall id :: id in ids ==>
          staged[id].definition.key in after && after[staged[id].definition.key] == Record(Outcome(staged[id]), false))
    && (forall k :: k in before && (forall id :: id in ids ==> staged[id].definition.key != k) ==> after[k] == before[k])
  }

  /** Changes to different features do not see one another. */
  lemma StillReady(
    records: map<string, Record>, staged: map<nat, StagedChange>, ids: seq<nat>, after: map<string, Record>, id: nat)
    requires OnePerKey(staged) && (forall x :: x in ids ==> x in staged) && BatchMade(records, staged, ids, after) && id !in ids
    ensures Ready(after, staged, id) <==> Ready(records, staged, id)
  {
    if id in staged { assert forall x :: x in ids ==> staged[x].definition.key != staged[id].definition.key; }
  }

  lemma BatchGrows(records: map<string, Record>, staged: map<nat, StagedChange>, ids: seq<nat>, after: map<string, Record>, id: nat)
    requires OnePerKey(staged) && (forall x :: x in ids ==> x in staged) && BatchMade(records, staged, ids, after)
    requires id !in ids && Ready(after, staged, id)
    ensures BatchMade(records, staged, ids + [id], after[staged[id].definition.key := Record(Outcome(staged[id]), false)])
  {
  }

  lemma ApplyOneIsReady(records: map<string, Record>, results: seq<Definition>, staged: map<nat, StagedChange>, id: nat)
    ensures var b := ApplyOne(records, results, staged, id);
            && (b.Applied? <==> Ready(records, staged, id))
            && (b.Applied? ==>
                  && b.records == records[staged[id].definition.key := Record(Outcome(staged[id]), false)]
                  && b.results == results + [Outcome(staged[id])])
  {
  }

  ghost predicate ResultsMade(staged: map<nat, StagedChange>, ids: seq<nat>, results: seq<Definition>) {
    |results| == |ids| && forall i :: 0 <= i < |ids| ==> ids[i] in staged && results[i] == Outcome(staged[ids[i]])
  }

  ghost predicate AllReadyIn(records: map<string, Record>, staged: map<nat, StagedChange>, ids: seq<nat>) {
    forall id :: id in ids ==> Ready(records, staged, id)
  }

  lemma AllReadySnoc(records: map<string, Record>, staged: map<nat, StagedChange>, ids: seq<nat>, id: nat)
    ensures AllReadyIn(records, staged, ids + [id]) <==> AllReadyIn(records, staged, ids) && Ready(records, staged, id)
    ensures AllReadyIn(records, staged, ids) ==> forall x :: x in ids ==> x in staged
  {
    assert forall x :: x in ids + [id] <==> x in ids || x == id;
    assert forall x :: Ready(records, staged, x) ==> x in staged;
    hide Ready;
  }

  ghost predicate BatchOk(records: map<string, Record>, staged: map<nat, StagedChange>, ids: seq<nat>, b: Batch) {
    && (b.Applied? <==> AllReadyIn(records, staged, ids))
    && (b.Applied? ==>
          && (forall id :: id in ids ==> id in staged)
          && BatchMade(records, staged, ids, b.records) && ResultsMade(staged, ids, b.results))
  }

  lemma BatchStep(records: map<string, Record>, staged: map<nat, StagedChange>, ids: seq<nat>, b: Batch, id: nat)
    requires OnePerKey(staged) && BatchOk(records, staged, ids, b) && id !in ids && b.Applied?
    ensures BatchOk(records, staged, ids + [id], ApplyOne(b.records, b.results, staged, id))
  {
    ApplyOneIsReady(b.records, b.results, staged, id);
    AllReadySnoc(records, staged, ids, id);
    hide Ready, AllReadyIn, OnePerKey, ApplyOne, Outcome;
    StillReady(records, staged, ids, b.records, id);
    if Ready(b.records, staged, id) {
      BatchGrows(records, staged, ids, b.records, id);
      hide BatchMade;
      ReadyIsStaged(b.records, staged, id);
    }
  }

  lemma ReadyIsStaged(records: map<string, Record>, staged: map<nat, StagedChange>, id: nat)
    requires Ready(records, staged, id)
    ensures id in staged
  {
  }

  lemma {:induction false} BatchClosedForm(records: map<string, Record>, staged: map<nat, StagedChange>, ids: seq<nat>)
    requires OnePerKey(staged) && Distinct(ids)
    ensures BatchOk(records, staged, ids, ApplyEach(records, staged, ids))
  {
    if ids != [] {
      var front, last := ids[..|ids| - 1], ids[|ids| - 1];
      assert ids == front + [last] && last !in front;
      BatchClosedForm(records, staged, front);
      var b := ApplyEach(records, staged, front);
      hide BatchMade, ResultsMade, Ready, OnePerKey, ApplyOne;
      if b.Applied? { BatchStep(records, staged, front, b, last); } else { AllReadySnoc(records, staged, front, last); }
    }
  }

  lemma SameBatch(records: map<string, Record>, staged: map<nat, StagedChange>, a: seq<nat>, b: seq<nat>,
                  x: map<string, Record>, y: map<string, Record>)
    requires (forall id :: id in a <==> id in b) && forall id :: id in a ==> id in staged
    requires BatchMade(records, staged, a, x) && BatchMade(records, staged, b, y)
    ensures x == y
  {
    forall k | k in x ensures k in y && x[k] == y[k] {
      if id :| id in a && staged[id].definition.key == k { assert id in b; }
    }
  }

  /** The order of a batch decides neither whether it applies nor the records it leaves. */
  lemma BatchIgnoresOrder(records: map<string, Record>, staged: map<nat, StagedChange>, a: seq<nat>, b: seq<nat>)
    requires OnePerKey(staged) && Distinct(a) && Distinct(b) && forall id :: id in a <==> id in b
    ensures ApplyEach(records, staged, a).Applied? <==> ApplyEach(records, staged, b).Applied?
    ensures ApplyEach(records, staged, a).Applied? ==> ApplyEach(records, staged, a).records == ApplyEach(records, staged, b).records
  {
    BatchClosedForm(records, staged, a);
    BatchClosedForm(records, staged, b);
    hide BatchMade, Ready;
    if ApplyEach(records, staged, a).Applied? {
      SameBatch(records, staged, a, b, ApplyEach(records, staged, a).records, ApplyEach(records, staged, b).records);
    }
  }

  ghost predicate AllReady(st: TenantState, now: int) {
    forall id :: id in st.staged && Due(st.staged[id], now) ==> Ready(st.records, st.staged, id)
  }

  lemma DueIdsAre(st: TenantState, now: int)
    ensures Distinct(DueIds(st, now)) && forall id :: id in DueIds(st, now) <==> id in st.staged && Due(st.staged[id], now)
  {
    assert forall id :: id in DueIds(st, now) <==> id in DueSet(st.staged, now);
  }

  lemma DueReady(st: TenantState, now: int)
    ensures AllReadyIn(st.records, st.staged, DueIds(st, now)) <==> AllReady(st, now)
  {
    DueIdsAre(st, now);
    hide DueIds, Ready;
  }

  lemma BatchEffect(env: Env, st: TenantState, ids: seq<nat>, actor: string, order: seq<string>)
    ensures var e, batch := StagesApplied(env, st, ids, actor, order), ApplyEach(st.records, st.staged, ids);
            && (e.answer.Features? <==> batch.Applied? && GraphOk(env, batch.records, st.groups, order))
            && (!e.answer.Features? ==> e.state == st)
            && (e.answer.Features? ==>
                  && e.state.records == batch.records && e.answer.definitions == batch.results
                  && (forall id :: id in e.state.staged <==> id in st.staged && id !in ids)
                  && (forall id :: id in e.state.staged ==> e.state.staged[id] == st.staged[id]))
  {
    hide GraphOk, LoggedAll, ApplyEach;
  }

  lemma ScheduledIsBatch(env: Env, st: TenantState, now: int, actor: string, choice: Choice)
    requires now != 0 && DueIds(st, now) != []
    ensures Perform(env, st, ApplyScheduled(now, actor), choice) == StagesApplied(env, st, DueIds(st, now), actor, choice.graphOrder)
  {
    hide StagesApplied, DueIds;
  }

  /**
   * A scheduled application takes every due stage or none: it succeeds exactly when each is still ready against
   * the current records and the resulting graph is accepted, and then only stages that were not due stay pending.
   */
  lemma ScheduledIsAllOrNothing(env: Env, st: TenantState, now: int, actor: string, choice: Choice)
    requires Inv(env, st) && now != 0 && DueIds(st, now) != []
    ensures var e := Perform(env, st, ApplyScheduled(now, actor), choice);
            var batch := ApplyEach(st.records, st.staged, DueIds(st, now));
            && (batch.Applied? <==> AllReady(st, now))
            && (e.answer.Features? <==> AllReady(st, now) && GraphOk(env, batch.records, st.groups, choice.graphOrder))
            && (!e.answer.Features? ==> e.state == st)
            && (e.answer.Features? ==>
                  && e.state.records == batch.records && e.answer.definitions == batch.results
                  && (forall id :: id in e.state.staged <==> id in st.staged && !Due(st.staged[id], now))
                  && (forall id :: id in e.state.staged ==> e.state.staged[id] == st.staged[id]))
  {
    assert OnePerKey(st.staged);
    hide *;
    DueIdsAre(st, now);
    DueReady(st, now);
    BatchClosedForm(st.records, st.staged, DueIds(st, now));
    ScheduledIsBatch(env, st, now, actor, choice);
    BatchEffect(env, st, DueIds(st, now), actor, choice.graphOrder);
  }

  /** The call applies this pending stage, by name or because it is due. */
  ghost predicate Applies(env: Env, st: TenantState, op: Op, choice: Choice, id: nat) {
    && id in st.staged
    && match op
       case ApplyStage(x, _) => x == id && Perform(env, st, op, choice).answer.Feature?
       case ApplyScheduled(now, _) => Due(st.staged[id], now) && Perform(env, st, op, choice).answer.Features?
       case _ => false
  }

  ghost predicate AppliedAt(env: Env, r: Run, j: nat, id: nat)
    requires IsRun(env, r)
  {
    j < |r.ops| && Applies(env, r.states[j], r.ops[j], r.choices[j], id)
  }

  lemma DueIsListed(st: TenantState, now: int, id: nat)
    requires id in st.staged && Due(st.staged[id], now)
    ensures id in DueIds(st, now) && DueIds(st, now) != [] && Distinct(DueIds(st, now))
  {
    assert id in DueSet(st.staged, now);
  }

  lemma ScheduledHasATime(env: Env, st: TenantState, now: int, actor: string, choice: Choice)
    ensures Perform(env, st, ApplyScheduled(now, actor), choice).answer.Features? ==> now != 0
  {
    hide StagesApplied, DueIds;
  }

  lemma DueIsApplied(env: Env, st: TenantState, now: int, actor: string, choice: Choice, id: nat)
    requires Inv(env, st) && Perform(env, st, ApplyScheduled(now, actor), choice).answer.Features?
    requires id in st.staged && Due(st.staged[id], now)
    ensures Ready(st.records, st.staged, id)
    ensures var after, key := Perform(env, st, ApplyScheduled(now, actor), choice).state, st.staged[id].definition.key;
            key in after.records && after.records[key] == Record(Outcome(st.staged[id]), false) && id !in after.staged
  {
    hide Perform, GroupsWellFormed, StagesOk, RecordsKeyed, DueIds, GraphOk, ApplyEach;
    ScheduledHasATime(env, st, now, actor, choice);
    DueIsListed(st, now, id);
    ScheduledIsAllOrNothing(env, st, now, actor, choice);
    BatchClosedForm(st.records, st.staged, DueIds(st, now));
  }

  lemma ApplicationReplaces(env: Env, st: TenantState, op: Op, choice: Choice, id: nat)
    requires Inv(env, st) && Applies(env, st, op, choice, id)
    ensures var after, change := Perform(env, st, op, choice).state, st.staged[id];
            && Ready(st.records, st.staged, id) && id !in after.staged
            && change.definition.key in after.records && after.records[change.definition.key] == Record(Outcome(change), false)
            && (op.ApplyStage? ==> after.records == st.records[change.definition.key := Record(Outcome(change), false)])
  {
    hide Inv, Perform;
    match op
    case ApplyStage(_, actor) => ApplyingReplaces(env, st, id, actor, choice);
    case ApplyScheduled(now, actor) => DueIsApplied(env, st, now, actor, choice, id);
  }

  lemma AppliedStep(env: Env, r: Run, j: nat, id: nat)
    requires IsRun(env, r) && AppliedAt(env, r, j, id) && Inv(env, r.states[j])
    ensures var st, after, change := r.states[j], r.states[j + 1], r.states[j].staged[id];
            && Ready(st.records, st.staged, id) && id !in after.staged
            && change.definition.key in after.records && after.records[change.definition.key] == Record(Outcome(change), false)
            && (r.ops[j].ApplyStage? ==> after.records == st.records[change.definition.key := Record(Outcome(change), false)])
  {
    hide Inv, Perform, Ready;
    assert StepAt(env, r, j);
    ApplicationReplaces(env, r.states[j], r.ops[j], r.choices[j], id);
  }

  /**
   * A staged change that is applied, by name or on schedule, replaces exactly the record it was staged against,
   * whatever happened in between, and its identity is never pending again.
   */
  lemma AppliedStageReplacesWhatItSaw(env: Env, r: Run, i: nat, j: nat, k: nat, change: StagedChange, seen: Record)
    requires IsRun(env, r) && StagedAt(env, r, i, change, seen) && i < j < k < |r.states| && AppliedAt(env, r, j, change.id)
    ensures var key, next := change.definition.key, Record(Outcome(change), false);
            && key in r.states[j].records && r.states[j].records[key] == seen
            && key in r.states[j + 1].records && r.states[j + 1].records[key] == next
            && (r.ops[j].ApplyStage? ==> r.states[j + 1].records == r.states[j].records[key := next])
    ensures change.id !in r.states[k].staged
  {
    hide Inv, Evolves, Perform, StepAt, AnswerAt;
    RunEvolves(env, r);
    StagingWitnesses(env, r, i, change, seen);
    PendingStageSeesItsRecord(env, r.states, i + 1, j, change, seen);
    RunKeepsInv(env, r, j);
    AppliedStep(env, r, j, change.id);
    NextStageGrows(env, r.states, i + 1, j + 1);
    IdentitiesNeverReturn(env, r.states, j + 1, k, change.id);
  }

  /** The j-th call is a cleanup that discards this stage: its feature is purged, or its time lies before the limit. */
  ghost predicate DiscardedAt(r: Run, j: nat, id: nat)
    requires j < |r.ops| && j < |r.states| && id in r.states[j].staged
  {
    && r.ops[j].Cleanup?
    && var change, limit, records := r.states[j].staged[id], r.ops[j].discardBefore, r.states[j].records;
       || (r.ops[j].purgeDeleted && change.definition.key in records && records[change.definition.key].deleted)
       || (limit != 0 && change.applyAt != 0 && change.applyAt < limit)
  }

  lemma OtherCallsKeepStages(env: Env, st: TenantState, op: Op, choice: Choice, id: nat)
    requires id in st.staged && !op.ApplyStage? && !op.ApplyScheduled? && !op.Cleanup?
    ensures id in Perform(env, st, op, choice).state.staged
  {
    hide ValidDefinition, GroupsAccepted, GraphOk, PlanOf, DecodedDocument, ListAccepted;
  }

  lemma UnscheduledStays(env: Env, st: TenantState, now: int, actor: string, choice: Choice, id: nat)
    requires Inv(env, st) && id in st.staged
    requires !Due(st.staged[id], now) || !Perform(env, st, ApplyScheduled(now, actor), choice).answer.Features?
    ensures id in Perform(env, st, ApplyScheduled(now, actor), choice).state.staged
  {
    hide Inv, GraphOk, DueIds, StagesApplied;
    if now != 0 && DueIds(st, now) != [] {
      ScheduledIsAllOrNothing(env, st, now, actor, choice);
      hide Perform;
    }
  }

  lemma UnnamedStays(env: Env, st: TenantState, x: nat, actor: string, choice: Choice, id: nat)
    requires id in st.staged && (x != id || !Perform(env, st, ApplyStage(x, actor), choice).answer.Feature?)
    ensures id in Perform(env, st, ApplyStage(x, actor), choice).state.staged
  {
    if Perform(env, st, ApplyStage(x, actor), choice).answer.Feature? {
      hide Perform;
      ApplyingReplaces(env, st, x, actor, choice);
    }
  }

  /** A pending stage ends in exactly two ways: it is applied, or an accepted cleanup discards it. */
  lemma StagesEndByApplicationOrCleanup(env: Env, r: Run, j: nat, id: nat)
    requires IsRun(env, r) && j < |r.ops| && id in r.states[j].staged
    ensures id !in r.states[j + 1].staged <==>
              AppliedAt(env, r, j, id) || (DiscardedAt(r, j, id) && AnswerAt(env, r, j).Cleaned?)
  {
    hide Inv;
    RunKeepsInv(env, r, j);
    assert StepAt(env, r, j);
    var st, op, choice := r.states[j], r.ops[j], r.choices[j];
    if AppliedAt(env, r, j, id) {
      hide Perform;
      ApplicationReplaces(env, st, op, choice, id);
    } else if op.Cleanup? {
    } else {
      hide Perform;
      if op.ApplyStage? { UnnamedStays(env, st, op.id, op.actor, choice, id); }
      else if op.ApplyScheduled? { UnscheduledStays(env, st, op.now, op.actor, choice, id); }
      else { OtherCallsKeepStages(env, st, op, choice, id); }
    }
  }

  // ---- Imports ----

  function Touched(r: ImportReport): (n: nat) { r.createdFeatures + r.updatedFeatures + r.createdGroups + r.updatedGroups }

  /** Each resource of the document is created, updated or skipped, conflicts are the latter two, and changes are audited. */
  ghost predicate Balanced(plan: Plan, n: nat) {
    && Touched(plan.report) + plan.report.skipped == n
    && |plan.report.conflicts| == plan.report.updatedFeatures + plan.report.updatedGroups + plan.report.skipped
    && |plan.audits| == Touched(plan.report)
  }

  lemma {:induction false} GroupsBalance(plan: Plan, gs: seq<Group>, policy: Policy, actor: string, n: nat)
    requires Balanced(plan, n)
    ensures Balanced(PlanGroups(plan, gs, policy, actor), n + |gs|)
  {
    if gs != [] { GroupsBalance(plan, gs[..|gs| - 1], policy, actor, n); }
  }

  lemma {:induction false} FeaturesBalance(plan: Plan, ds: seq<Definition>, policy: Policy, actor: string, n: nat)
    requires Balanced(plan, n)
    ensures Balanced(PlanFeatures(plan, ds, policy, actor), n + |ds|)
  {
    if ds != [] { FeaturesBalance(plan, ds[..|ds| - 1], policy, actor, n); }
  }

  lemma ImportBalances(st: TenantState, c: Catalog, dryRun: bool, policy: Policy, actor: string)
    ensures Balanced(PlanOf(st, c, dryRun, policy, actor), |c.groups| + |c.definitions|)
  {
    GroupsBalance(NoPlan(st, dryRun), c.groups, policy, actor, 0);
    FeaturesBalance(PlanGroups(NoPlan(st, dryRun), c.groups, policy, actor), c.definitions, policy, actor, |c.groups|);
  }

  /** What the plan holds for one incoming feature, judged against the records before the import. */
  ghost predicate FeaturePlanned(before: map<string, Record>, after: map<string, Record>, d: Definition, policy: Policy) {
    d.key in after
    && after[d.key]
       == if d.key !in before then Record(d.(version := 1), false)
          else if policy == Replace then Record(d.(version := before[d.key].definition.version + 1), false)
          else before[d.key]
  }

  ghost function FeatureKeys(ds: seq<Definition>): (r: set<string>) { set d | d in ds :: d.key }

  ghost function GroupKeys(gs: seq<Group>): (r: set<string>) { set g | g in gs :: g.key }

  ghost predicate FeaturesPlanned(before: map<string, Record>, after: map<string, Record>, ds: seq<Definition>, policy: Policy) {
    && (forall d :: d in ds ==> FeaturePlanned(before, after, d, policy))
    && (forall k :: k in before ==> k in after)
    && (forall k :: k in after && k !in FeatureKeys(ds) ==> k in before && after[k] == before[k])
  }

  ghost predicate GroupPlanned(before: Groups, after: Groups, g: Group, policy: Policy) {
    g.key in after
    && after[g.key]
       == if g.key !in before then g.(version := 1)
          else if policy == Replace then g.(version := before[g.key].version + 1)
          else before[g.key]
  }

  ghost predicate GroupsPlanned(before: Groups, after: Groups, gs: seq<Group>, policy: Policy) {
    && (forall g :: g in gs ==> GroupPlanned(before, after, g, policy))
    && (forall k :: k in before ==> k in after)
    && (forall k :: k in after && k !in GroupKeys(gs) ==> k in before && after[k] == before[k])
  }

  lemma PlanFeatureAt(p: Plan, d: Definition, policy: Policy, actor: string)
    ensures var after := PlanFeature(p, d, policy, actor).records;
            && after.Keys == p.records.Keys + {d.key} && FeaturePlanned(p.records, after, d, policy)
            && forall k :: k in p.records && k != d.key ==> after[k] == p.records[k]
  {
  }

  lemma PlanGroupAt(p: Plan, g: Group, policy: Policy, actor: string)
    ensures var after := PlanGroup(p, g, policy, actor).groups;
            && after.Keys == p.groups.Keys + {g.key} && GroupPlanned(p.groups, after, g, policy)
            && forall k :: k in p.groups && k != g.key ==> after[k] == p.groups[k]
  {
  }

  lemma FeatureStaysPlanned(
    before: map<string, Record>, now: map<string, Record>, after: map<string, Record>, x: Definition, policy: Policy)
    requires FeaturePlanned(before, now, x, policy) && (x.key in now ==> x.key in after && after[x.key] == now[x.key])
    ensures FeaturePlanned(before, after, x, policy)
  {
  }

  lemma GroupStaysPlanned(before: Groups, now: Groups, after: Groups, x: Group, policy: Policy)
    requires GroupPlanned(before, now, x, policy) && (x.key in now ==> x.key in after && after[x.key] == now[x.key])
    ensures GroupPlanned(before, after, x, policy)
  {
  }

  lemma LastFeaturePlanned(before: map<string, Record>, p: Plan, ds: seq<Definition>, d: Definition, policy: Policy, actor: string)
    requires FeaturesPlanned(before, p.records, ds, policy) && d.key !in FeatureKeys(ds)
    ensures FeaturePlanned(before, PlanFeature(p, d, policy, actor).records, d, policy)
  {
    hide FeatureKeys;
    assert d.key in p.records ==> d.key in before && p.records[d.key] == before[d.key];
  }

  lemma LastGroupPlanned(before: Groups, p: Plan, gs: seq<Group>, g: Group, policy: Policy, actor: string)
    requires GroupsPlanned(before, p.groups, gs, policy) && g.key !in GroupKeys(gs)
    ensures GroupPlanned(before, PlanGroup(p, g, policy, actor).groups, g, policy)
  {
    hide GroupKeys;
    assert g.key in p.groups ==> g.key in before && p.groups[g.key] == before[g.key];
  }

  lemma PlanOneFeature(before: map<string, Record>, p: Plan, ds: seq<Definition>, d: Definition, policy: Policy, actor: string)
    requires FeaturesPlanned(before, p.records, ds, policy) && d.key !in FeatureKeys(ds)
    ensures FeaturesPlanned(before, PlanFeature(p, d, policy, actor).records, ds + [d], policy)
  {
    hide PlanFeature, FeaturePlanned;
    PlanFeatureAt(p, d, policy, actor);
    LastFeaturePlanned(before, p, ds, d, policy, actor);
    var after := PlanFeature(p, d, policy, actor).records;
    assert FeatureKeys(ds + [d]) == FeatureKeys(ds) + {d.key};
    forall x | x in ds + [d] ensures FeaturePlanned(before, after, x, policy) {
      if x in ds {
        assert x.key in FeatureKeys(ds);
        FeatureStaysPlanned(before, p.records, after, x, policy);
      }
    }
  }

  lemma PlanOneGroup(before: Groups, p: Plan, gs: seq<Group>, g: Group, policy: Policy, actor: string)
    requires GroupsPlanned(before, p.groups, gs, policy) && g.key !in GroupKeys(gs)
    ensures GroupsPlanned(before, PlanGroup(p, g, policy, actor).groups, gs + [g], policy)
  {
    hide PlanGroup, GroupPlanned;
    PlanGroupAt(p, g, policy, actor);
    LastGroupPlanned(before, p, gs, g, policy, actor);
    var after := PlanGroup(p, g, policy, actor).groups;
    assert GroupKeys(gs + [g]) == GroupKeys(gs) + {g.key};
    forall x | x in gs + [g] ensures GroupPlanned(before, after, x, policy) {
      if x in gs {
        assert x.key in GroupKeys(gs);
        GroupStaysPlanned(before, p.groups, after, x, policy);
      }
    }
  }

  lemma LastIsFresh<T>(items: seq<T>, key: T -> string, keys: set<string>)
    requires items != [] && DistinctKeys(items, key)
    requires forall k :: k in keys ==> exists x :: x in items[..|items| - 1] && key(x) == k
    ensures key(items[|items| - 1]) !in keys && DistinctKeys(items[..|items| - 1], key)
  {
  }

  lemma LastFeatureIsFresh(ds: seq<Definition>)
    requires ds != [] && DistinctKeys(ds, DefinitionKey)
    ensures ds[|ds| - 1].key !in FeatureKeys(ds[..|ds| - 1]) && DistinctKeys(ds[..|ds| - 1], DefinitionKey)
  {
    var front := ds[..|ds| - 1];
    forall k | k in FeatureKeys(front) ensures exists x :: x in front && DefinitionKey(x) == k {
      var x :| x in front && x.key == k;
      assert DefinitionKey(x) == k;
    }
    LastIsFresh(ds, DefinitionKey, FeatureKeys(front));
  }

  lemma LastGroupIsFresh(gs: seq<Group>)
    requires gs != [] && DistinctKeys(gs, GroupKey)
    ensures gs[|gs| - 1].key !in GroupKeys(gs[..|gs| - 1]) && DistinctKeys(gs[..|gs| - 1], GroupKey)
  {
    var front := gs[..|gs| - 1];
    forall k | k in GroupKeys(front) ensures exists x :: x in front && GroupKey(x) == k {
      var x :| x in front && x.key == k;
      assert GroupKey(x) == k;
    }
    LastIsFresh(gs, GroupKey, GroupKeys(front));
  }

  lemma {:induction false} FeaturesFollowPolicy(plan: Plan, ds: seq<Definition>, policy: Policy, actor: string)
    requires DistinctKeys(ds, DefinitionKey)
    ensures FeaturesPlanned(plan.records, PlanFeatures(plan, ds, policy, actor).records, ds, policy)
  {
    if ds == [] { return; }
    var front, last := ds[..|ds| - 1], ds[|ds| - 1];
    LastFeatureIsFresh(ds);
    hide FeaturesPlanned, FeatureKeys, PlanFeature, DistinctKeys;
    FeaturesFollowPolicy(plan, front, policy, actor);
    PlanOneFeature(plan.records, PlanFeatures(plan, front, policy, actor), front, last, policy, actor);
    assert ds == front + [last];
  }

  lemma {:induction false} GroupsFollowPolicy(plan: Plan, gs: seq<Group>, policy: Policy, actor: string)
    requires DistinctKeys(gs, GroupKey)
    ensures GroupsPlanned(plan.groups, PlanGroups(plan, gs, policy, actor).groups, gs, policy)
  {
    hide GroupsPlanned, GroupKeys, PlanGroup, DistinctKeys;
    if gs == [] {
      NoGroupsPlanned(plan.groups, policy);
    } else {
      var front, last := gs[..|gs| - 1], gs[|gs| - 1];
      assert gs == front + [last];
      LastGroupIsFresh(gs);
      GroupsFollowPolicy(plan, front, policy, actor);
      PlanOneGroup(plan.groups, PlanGroups(plan, front, policy, actor), front, last, policy, actor);
    }
  }

  lemma NoGroupsPlanned(gs: Groups, policy: Policy)
    ensures GroupsPlanned(gs, gs, [], policy)
  {
  }

  /**
   * Judged against the tenant as it was: a new resource enters at version one, an existing one is replaced at the
   * next version under the replace policy and kept otherwise, and everything the document does not name is kept.
   */
  lemma PlanFollowsPolicy(st: TenantState, c: Catalog, dryRun: bool, policy: Policy, actor: string)
    requires DistinctKeys(c.definitions, DefinitionKey) && DistinctKeys(c.groups, GroupKey)
    ensures FeaturesPlanned(st.records, PlanOf(st, c, dryRun, policy, actor).records, c.definitions, policy)
    ensures GroupsPlanned(st.groups, PlanOf(st, c, dryRun, policy, actor).groups, c.groups, policy)
  {
    hide FeaturesPlanned, GroupsPlanned, DistinctKeys;
    var p := PlanGroups(NoPlan(st, dryRun), c.groups, policy, actor);
    GroupsFollowPolicy(NoPlan(st, dryRun), c.groups, policy, actor);
    PlanGroupsKeepRecords(NoPlan(st, dryRun), c.groups, policy, actor);
    FeaturesFollowPolicy(p, c.definitions, policy, actor);
    PlanFeaturesKeepGroups(p, c.definitions, policy, actor);
  }

  /** A dry run reports what the real run would. */
  lemma {:induction false} DryRunGroups(a: Plan, b: Plan, gs: seq<Group>, policy: Policy, actor: string)
    requires b == a.(report := a.report.(dryRun := b.report.dryRun))
    ensures PlanGroups(b, gs, policy, actor)
            == var p := PlanGroups(a, gs, policy, actor); p.(report := p.report.(dryRun := b.report.dryRun))
  {
    if gs != [] { DryRunGroups(a, b, gs[..|gs| - 1], policy, actor); }
  }

  lemma {:induction false} DryRunFeatures(a: Plan, b: Plan, ds: seq<Definition>, policy: Policy, actor: string)
    requires b == a.(report := a.report.(dryRun := b.report.dryRun))
    ensures PlanFeatures(b, ds, policy, actor)
            == var p := PlanFeatures(a, ds, policy, actor); p.(report := p.report.(dryRun := b.report.dryRun))
  {
    if ds != [] { DryRunFeatures(a, b, ds[..|ds| - 1], policy, actor); }
  }

  lemma DryRunPlan(st: TenantState, c: Catalog, policy: Policy, actor: string)
    ensures PlanOf(st, c, true, policy, actor)
            == var p := PlanOf(st, c, false, policy, actor); p.(report := p.report.(dryRun := true))
  {
    DryRunGroups(NoPlan(st, false), NoPlan(st, true), c.groups, policy, actor);
    DryRunFeatures(PlanGroups(NoPlan(st, false), c.groups, policy, actor), PlanGroups(NoPlan(st, true), c.groups, policy, actor),
                   c.definitions, policy, actor);
  }

  ghost predicate ConflictsAllowed(policy: Policy, report: ImportReport) { policy in {Skip, Replace} || report.conflicts == [] }

  /**
   * A dry run changes nothing and succeeds exactly when the graph it plans is accepted; the real run succeeds when
   * besides the policy tolerates the conflicts, reports the same counts, and commits exactly the planned records.
   */
  lemma DryRunPredictsImport(env: Env, st: TenantState, c: Catalog, policy: Policy, actor: string, order: seq<string>)
    ensures var dry := CatalogImported(env, st, c, true, policy, actor, order);
            var actual := CatalogImported(env, st, c, false, policy, actor, order);
            var plan := PlanOf(st, c, false, policy, actor);
            && dry.state == st
            && (dry.answer.Planned? <==> GraphOk(env, plan.records, plan.groups, order))
            && (actual.answer.Planned? <==> dry.answer.Planned? && ConflictsAllowed(policy, plan.report))
            && (dry.answer.Planned? ==> dry.answer.plan == plan.report.(dryRun := true))
            && (actual.answer.Planned? ==>
                  actual.answer.plan == plan.report && actual.state.records == plan.records && actual.state.groups == plan.groups
                  && actual.state.staged == st.staged && actual.state.nextStage == st.nextStage
                  && actual.state.audit == LoggedAll(env.limits, st.audit, plan.audits))
            && (!actual.answer.Planned? ==> actual.state == st)
  {
    hide GraphOk, PlanOf, LoggedAll;
    DryRunPlan(st, c, policy, actor);
  }

  /** Retention drops only the oldest entries: what remains is the end of the old log followed by the new entries. */
  lemma {:induction false} RetentionKeepsNewest(limits: Limits, audit: seq<AuditEntry>, entries: seq<AuditEntry>)
    requires |audit| <= limits.maxAuditEntries
    ensures var all, kept := audit + entries, LoggedAll(limits, audit, entries);
            && |kept| == (if |all| <= limits.maxAuditEntries then |all| else limits.maxAuditEntries)
            && kept == all[|all| - |kept|..]
  {
    if entries == [] {
      assert audit + entries == audit;
    } else {
      var front, last := entries[..|entries| - 1], entries[|entries| - 1];
      RetentionKeepsNewest(limits, audit, front);
      assert audit + entries == (audit + front) + [last];
    }
  }
}
