/** What holds along the chain of stored documents, where each state is read back in arranged form. */
module DurableRuns {
  import opened Ordering
  import opened Model
  import opened GroupForest
  import opened Codec
  import opened CodecMeaning
  import opened Tenant
  import opened TenantInvariant
  import opened TenantRuns
  import opened StateDocument
  import opened Readability
  import opened Durable

  // ---- Arranging twice is arranging once ----

  lemma SortTwice<T(!new)>(leq: (T, T) -> bool, s: seq<T>)
    requires TotalOrder(leq)
    ensures Sort(leq, Sort(leq, s)) == Sort(leq, s)
  {
    SortForgetsOrder(leq, Sort(leq, s), s);
  }

  lemma NormalStrategyTwice(s: Strategy)
    ensures NormalStrategy(NormalStrategy(s)) == NormalStrategy(s)
  {
    StringOrderIsTotal();
    match s
    case Exact(_, _, tenants, subjects, environments, _) =>
      SortTwice(StringLeq, tenants);
      SortTwice(StringLeq, subjects);
      SortTwice(StringLeq, environments);
    case Sets(_, _, allowTenants, denyTenants, allowSubjects, denySubjects) =>
      SortTwice(StringLeq, allowTenants);
      SortTwice(StringLeq, denyTenants);
      SortTwice(StringLeq, allowSubjects);
      SortTwice(StringLeq, denySubjects);
    case _ =>
  }

  lemma NormalTwice(d: Definition)
    ensures NormalDefinition(NormalDefinition(d)) == NormalDefinition(d)
  {
    StringOrderIsTotal();
    DependencyOrderIsTotal();
    SortTwice(StringLeq, d.tags);
    SortTwice(DependencyLeq, d.dependencies);
    forall i | 0 <= i < |d.strategies|
      ensures NormalStrategies(NormalStrategies(d.strategies))[i] == NormalStrategies(d.strategies)[i]
    {
      NormalStrategyTwice(d.strategies[i]);
    }
    hide Sort, NormalStrategy;
    assert NormalStrategies(NormalStrategies(d.strategies)) == NormalStrategies(d.strategies);
  }

  /** Reading the state back would change nothing. */
  ghost predicate InNormalForm(st: TenantState) {
    && (forall k :: k in st.records ==> NormalRecord(st.records[k]) == st.records[k])
    && (forall id :: id in st.staged ==> NormalStage(st.staged[id]) == st.staged[id])
  }

  lemma NormalStateIsNormal(st: TenantState)
    ensures InNormalForm(NormalState(st))
  {
    hide NormalDefinition;
    forall k | k in st.records ensures NormalRecord(NormalRecord(st.records[k])) == NormalRecord(st.records[k]) {
      NormalTwice(st.records[k].definition);
    }
    forall id | id in st.staged ensures NormalStage(NormalStage(st.staged[id])) == NormalStage(st.staged[id]) {
      NormalTwice(st.staged[id].definition);
    }
  }

  // ---- Reading back keeps what calls keep ----

  /** What was not touched reads back as it was, and what was replaced is still newer. */
  lemma StoringEvolves(st: TenantState, after: TenantState)
    requires InNormalForm(st) && Evolves(st, after)
    ensures Evolves(st, NormalState(after))
  {
    hide NormalDefinition;
    forall k | k in after.records
      ensures NormalRecord(after.records[k]).definition.version == after.records[k].definition.version
    {
      VersionIsKept(after.records[k].definition);
    }
  }

  lemma VersionIsKept(d: Definition)
    ensures NormalDefinition(d).version == d.version && NormalDefinition(d).key == d.key
  {
  }

  lemma NormalStateIsLoadable(env: Env, st: TenantState)
    requires Loadable(env, st)
    ensures Loadable(env, NormalState(st))
  {
    hide ValidDefinition, NormalDefinition, NormalGroups, AllAttached;
    forall k | k in st.records ensures ValidDefinition(env, NormalRecord(st.records[k]).definition) {
      NormalDefinitionValid(env, st.records[k].definition);
    }
    forall id | id in st.staged ensures ValidDefinition(env, NormalStage(st.staged[id]).definition) {
      NormalDefinitionValid(env, st.staged[id].definition);
    }
    NormalLive(st.records);
    NormalAttached(env, Live(st.records), st.groups);
  }

  // ---- The states of a chain ----

  /** Every readable state of a chain, in normal form, loadable, and keeping the provider's invariant. */
  ghost predicate ChainStateOk(env: Env, st: TenantState) { Inv(env, st) && Loadable(env, st) && InNormalForm(st) }

  lemma EmptyIsOk(env: Env)
    ensures ChainStateOk(env, EMPTY)
  {
    EmptyIsInv(env);
  }

  lemma StoredIsOk(env: Env, after: TenantState)
    requires Inv(env, after) && Loadable(env, after)
    ensures ChainStateOk(env, NormalState(after))
  {
    hide Inv, Loadable, InNormalForm, NormalState;
    NormalStateKeepsInv(env, after);
    NormalStateIsLoadable(env, after);
    NormalStateIsNormal(after);
  }

  lemma PriorIsReadable(s: Setup, history: seq<StateWire>, log: seq<Commit>, i: nat)
    requires Chain(s, history, log) && i < |log|
    ensures StateAt(s, history, i).Some?
  {
    hide Perform, Marshalled, Honest, StateAt;
    assert Link(s, history, log, i);
  }

  /** The state the i-th commit's call computed, before it was written and read back. */
  ghost function Computed(s: Setup, history: seq<StateWire>, log: seq<Commit>, i: nat): (st: TenantState)
    requires Chain(s, history, log) && i < |log|
  {
    PriorIsReadable(s, history, log, i);
    Perform(s.env, StateAt(s, history, i).value, log[i].op, log[i].choice).state
  }

  /** One link: the next state, if it can be read, is the call's state in arranged form. */
  lemma LinkReads(s: Setup, history: seq<StateWire>, log: seq<Commit>, i: nat)
    requires Chain(s, history, log) && i < |log|
    ensures StateAt(s, history, i).Some?
    ensures var after := Computed(s, history, log, i);
            && Inv(s.env, after) && Evolves(StateAt(s, history, i).value, after)
            && StateAt(s, history, i + 1) == if Loadable(s.env, after) then Some(NormalState(after)) else None
  {
    PriorIsReadable(s, history, log, i);
    ChainStatesKeepInv(s, history, log, i);
    assert Link(s, history, log, i);
    hide Perform, Marshalled, Unmarshalled, Inv, Evolves, NormalState, Loadable, Honest;
    var st := StateAt(s, history, i).value;
    PerformKeeps(s.env, st, log[i].op, log[i].choice);
    DocumentReadsBackExactlyWhen(s.env, s.size, Perform(s.env, st, log[i].op, log[i].choice).state);
  }

  /** Every state on a chain that can be read keeps the invariant, is loadable, and is in normal form. */
  lemma ChainStatesAreOk(s: Setup, history: seq<StateWire>, log: seq<Commit>, n: nat)
    requires Chain(s, history, log) && n <= |history| && StateAt(s, history, n).Some?
    ensures ChainStateOk(s.env, StateAt(s, history, n).value)
  {
    hide *;
    ChainCounts(s, history, log);
    if n == 0 {
      EmptyIsOk(s.env);
      StartsEmpty(s, history);
    } else {
      LinkReads(s, history, log, n - 1);
      StoredIsOk(s.env, Computed(s, history, log, n - 1));
    }
  }

  lemma ChainCounts(s: Setup, history: seq<StateWire>, log: seq<Commit>)
    requires Chain(s, history, log)
    ensures |log| == |history|
  {
    hide Link;
  }

  lemma StartsEmpty(s: Setup, history: seq<StateWire>)
    ensures StateAt(s, history, 0) == Some(EMPTY)
  {
  }

  /**
   * A commit leaves a document that can be read exactly when its caller met the condition of its call; after one that
   * does not, the tenant has no further commits.
   */
  lemma ChainStaysReadableExactlyWhen(s: Setup, history: seq<StateWire>, log: seq<Commit>, i: nat)
    requires Chain(s, history, log) && i < |log|
    ensures StateAt(s, history, i).Some?
    ensures StateAt(s, history, i + 1).Some? <==> KeepsReadable(s.env, StateAt(s, history, i).value, log[i].op)
    ensures StateAt(s, history, i + 1) == None ==> i + 1 == |log|
  {
    LinkReads(s, history, log, i);
    ChainStatesAreOk(s, history, log, i);
    CommitSucceeded(s, history, log, i);
    if i + 1 < |log| { PriorIsReadable(s, history, log, i + 1); }
    hide *;
    CallsStayReadableFrom(s.env, StateAt(s, history, i).value, log[i].op, log[i].choice);
    ComputedIs(s, history, log, i);
  }

  lemma CommitSucceeded(s: Setup, history: seq<StateWire>, log: seq<Commit>, i: nat)
    requires Chain(s, history, log) && i < |log|
    ensures StateAt(s, history, i).Some?
    ensures var e := Perform(s.env, StateAt(s, history, i).value, log[i].op, log[i].choice);
            !e.answer.Denied? && e.answer == log[i].answer
  {
    assert Link(s, history, log, i);
    hide Perform, Marshalled, StateAt, Honest;
  }

  lemma CallsStayReadableFrom(env: Env, st: TenantState, op: Op, choice: Choice)
    requires ChainStateOk(env, st) && !Perform(env, st, op, choice).answer.Denied?
    ensures Loadable(env, Perform(env, st, op, choice).state) <==> KeepsReadable(env, st, op)
  {
    hide Inv, Loadable, InNormalForm, Perform, KeepsReadable;
    CallsStayReadableExactlyWhen(env, st, op, choice);
  }

  lemma ComputedIs(s: Setup, history: seq<StateWire>, log: seq<Commit>, i: nat)
    requires Chain(s, history, log) && i < |log| && StateAt(s, history, i).Some?
    ensures Computed(s, history, log, i) == Perform(s.env, StateAt(s, history, i).value, log[i].op, log[i].choice).state
  {
    hide Perform, StateAt, Chain;
  }

  // ---- A chain is an evolution ----

  ghost function ReadAt(s: Setup, history: seq<StateWire>, i: nat): (st: TenantState)
    requires i <= |history|
  {
    match StateAt(s, history, i)
    case None => EMPTY
    case Some(st) => st
  }

  /** The readable states of a chain: all of them, or all but the last. */
  ghost function States(s: Setup, history: seq<StateWire>): (states: seq<TenantState>)
    ensures |states| == |history| + if StateAt(s, history, |history|).Some? then 1 else 0
    ensures forall i :: 0 <= i < |states| ==> states[i] == ReadAt(s, history, i)
  {
    seq(|history| + if StateAt(s, history, |history|).Some? then 1 else 0,
        i requires 0 <= i <= |history| => ReadAt(s, history, i))
  }

  lemma StatesAreRead(s: Setup, history: seq<StateWire>, log: seq<Commit>, i: nat)
    requires Chain(s, history, log) && i < |States(s, history)|
    ensures i <= |history| && |log| == |history| && StateAt(s, history, i) == Some(States(s, history)[i])
  {
    hide Link, StateAt, States;
    if i < |history| { PriorIsReadable(s, history, log, i); }
  }

  lemma LinkEvolves(s: Setup, history: seq<StateWire>, log: seq<Commit>, i: nat)
    requires Chain(s, history, log) && i < |log| && StateAt(s, history, i + 1).Some?
    ensures StateAt(s, history, i).Some? && Evolves(StateAt(s, history, i).value, StateAt(s, history, i + 1).value)
  {
    LinkReads(s, history, log, i);
    ChainStatesAreOk(s, history, log, i);
    hide StateAt, Inv, Loadable, Evolves, InNormalForm, NormalState, Computed, Chain;
    StoringEvolves(StateAt(s, history, i).value, Computed(s, history, log, i));
  }

  lemma ChainEvolves(s: Setup, history: seq<StateWire>, log: seq<Commit>)
    requires Chain(s, history, log)
    ensures Evolution(s.env, States(s, history))
  {
    var states := States(s, history);
    hide Chain, StateAt, States, Inv, Evolves;
    forall i | 0 <= i < |states| ensures Inv(s.env, states[i]) {
      StatesAreRead(s, history, log, i);
      ChainStatesKeepInv(s, history, log, i);
    }
    forall i | 0 <= i < |states| - 1 ensures EvolvesAt(states, i) {
      StatesAreRead(s, history, log, i);
      StatesAreRead(s, history, log, i + 1);
      LinkEvolves(s, history, log, i);
    }
  }

  // ---- No lost updates, no stale applications ----

  /** Along a chain each version of a record is replaced at most once, whoever commits, unless it was purged in between. */
  lemma StoredVersionsAreReplacedOnce(
    s: Setup, history: seq<StateWire>, log: seq<Commit>, i: nat, j: nat, key: string, version: nat)
    requires Chain(s, history, log) && i < j
    requires ReplacedAt(States(s, history), i, key, version) && ReplacedAt(States(s, history), j, key, version)
    ensures exists m :: i < m < j && key !in States(s, history)[m].records
  {
    hide Chain, States, ReplacedAt, Evolution;
    ChainEvolves(s, history, log);
    VersionsAreReplacedOnce(s.env, States(s, history), i, j, key, version);
  }

  /** A stage as it reads back still sees the record it was staged against. */
  lemma NormalWitnessed(st: TenantState, change: StagedChange, seen: Record)
    requires Witnessed(st, change, seen) && NormalRecord(seen) == seen
    ensures Witnessed(NormalState(st), NormalStage(change), seen)
  {
    hide NormalDefinition;
    VersionIsKept(change.definition);
    VersionIsKept(st.records[change.definition.key].definition);
  }

  /** The i-th commit staged `change`; what it was staged against is what its state held. */
  ghost predicate StagedBy(log: seq<Commit>, i: nat, change: StagedChange) {
    i < |log| && log[i].op.StageUpdate? && log[i].answer == Stage(change)
  }

  lemma StagingIsStored(s: Setup, history: seq<StateWire>, log: seq<Commit>, i: nat, change: StagedChange)
    requires Chain(s, history, log) && StagedBy(log, i, change) && StateAt(s, history, i + 1).Some?
    ensures StateAt(s, history, i).Some? && change.definition.key in StateAt(s, history, i).value.records
    ensures var seen, next := StateAt(s, history, i).value.records[change.definition.key], StateAt(s, history, i + 1).value;
            && Witnessed(next, NormalStage(change), seen) && seen.definition.version == change.expected
            && change.id == next.nextStage
    ensures var op := log[i].op; change == StagedChange(change.id, op.definition, op.expected, op.applyAt, op.actor)
  {
    LinkReads(s, history, log, i);
    ChainStatesAreOk(s, history, log, i);
    CommitSucceeded(s, history, log, i);
    ComputedIs(s, history, log, i);
    var st := StateAt(s, history, i).value;
    hide Chain, StateAt, Inv, Loadable, Evolves, Perform, Computed, Witnessed,
         NormalRecord, NormalStage, NormalRecords, NormalStages, NormalGroups;
    StagingSees(s.env, st, log[i].op, log[i].choice, change);
    NormalWitnessed(Computed(s, history, log, i), change, st.records[change.definition.key]);
  }

  /** An application reads back as the arranged outcome of the stage, and the stage is gone. */
  lemma ApplicationIsStored(s: Setup, history: seq<StateWire>, log: seq<Commit>, j: nat, id: nat)
    requires Chain(s, history, log) && j < |log| && StateAt(s, history, j).Some?
    requires Applies(s.env, StateAt(s, history, j).value, log[j].op, log[j].choice, id)
    ensures id in StateAt(s, history, j).value.staged
    ensures var st, change := StateAt(s, history, j).value, StateAt(s, history, j).value.staged[id];
            && TenantRuns.Ready(st.records, st.staged, id)
            && (StateAt(s, history, j + 1).Some? ==>
                  var next := StateAt(s, history, j + 1).value;
                  && id !in next.staged && change.definition.key in next.records
                  && next.records[change.definition.key] == Record(TenantRuns.Outcome(change), false))
  {
    LinkReads(s, history, log, j);
    ChainStatesAreOk(s, history, log, j);
    ComputedIs(s, history, log, j);
    var st := StateAt(s, history, j).value;
    hide Chain, StateAt, Inv, Loadable, Evolves, Perform, Computed, TenantRuns.Ready, NormalGroups;
    ApplicationReplaces(s.env, st, log[j].op, log[j].choice, id);
    OutcomeIsNormal(st.staged[id]);
    hide NormalDefinition;
  }

  lemma OutcomeIsNormal(change: StagedChange)
    requires NormalStage(change) == change
    ensures NormalDefinition(TenantRuns.Outcome(change)) == TenantRuns.Outcome(change)
  {
    assert NormalDefinition(change.definition) == change.definition;
    hide Sort, NormalStrategies;
  }

  /**
   * Over the documents of any number of clients: a staged change that is applied, by name or on schedule, replaces
   * exactly the record it was staged against, whatever was committed in between, by what it reads back as; and its
   * identity is never pending again.
   */
  lemma StoredStageReplacesWhatItSaw(
    s: Setup, history: seq<StateWire>, log: seq<Commit>, i: nat, j: nat, k: nat, change: StagedChange)
    requires Chain(s, history, log) && StagedBy(log, i, change) && i < j < |log| && j < k < |States(s, history)|
    requires Applies(s.env, States(s, history)[j], log[j].op, log[j].choice, change.id)
    ensures var states, key := States(s, history), change.definition.key;
            && key in states[i].records && key in states[j].records && states[j].records[key] == states[i].records[key]
            && key in states[j + 1].records && states[j + 1].records[key] == Record(TenantRuns.Outcome(NormalStage(change)), false)
            && change.id !in states[k].staged
    ensures var op := log[i].op; change == StagedChange(change.id, op.definition, op.expected, op.applyAt, op.actor)
  {
    var states := States(s, history);
    hide *;
    StatesAreRead(s, history, log, i);
    StatesAreRead(s, history, log, i + 1);
    StatesAreRead(s, history, log, j);
    StatesAreRead(s, history, log, j + 1);
    StagingIsStored(s, history, log, i, change);
    ApplicationIsStored(s, history, log, j, change.id);
    ChainEvolves(s, history, log);
    SawAndReplaced(s.env, states, i, j, k, change, states[i].records[change.definition.key]);
  }

  lemma SawAndReplaced(env: Env, states: seq<TenantState>, i: nat, j: nat, k: nat, change: StagedChange, seen: Record)
    requires Evolution(env, states) && i < j < k < |states|
    requires Witnessed(states[i + 1], NormalStage(change), seen) && seen.definition.version == change.expected
    requires change.id == states[i + 1].nextStage && change.id in states[j].staged
    requires TenantRuns.Ready(states[j].records, states[j].staged, change.id) && change.id !in states[j + 1].staged
    ensures states[j].staged[change.id] == NormalStage(change) && NormalStage(change).definition.key == change.definition.key
    ensures change.definition.key in states[j].records && states[j].records[change.definition.key] == seen
    ensures change.id !in states[k].staged
  {
    hide Inv, Evolves, NormalDefinition;
    VersionIsKept(change.definition);
    PendingStageSeesItsRecord(env, states, i + 1, j, NormalStage(change), seen);
    NextStageGrows(env, states, i + 1, j + 1);
    IdentitiesNeverReturn(env, states, j + 1, k, change.id);
  }
}
