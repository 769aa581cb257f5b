/** Durable management: load, compute and swap by any number of clients, and the retry loop of one of them. */
module Durable {
  import opened Model
  import opened Tenant
  import opened TenantInvariant
  import opened StateDocument
  import opened Backends
  import Memory

  /** What does not change during a run. */
  datatype Setup = Setup(env: Env, size: Size)

  // ---- One attempt ----

  datatype Attempt =
    | Unreadable
    | Unwritten(answer: Answer)
    | NotWritable
    | Ready(document: StateWire, answer: Answer)

  /** The state a register holds; an absent register holds the empty state. */
  ghost function Held(s: Setup, r: Register<StateWire>): (st: Option<TenantState>) {
    if r.Absent? then Some(EMPTY) else Unmarshalled(s.env, s.size, r.document)
  }

  /** What one attempt works out from the register it loaded. */
  ghost function Worked(s: Setup, r: Register<StateWire>, mutation: TenantState -> Effect): (a: Attempt) {
    match Held(s, r)
    case None => Unreadable
    case Some(st) =>
      var effect := mutation(st);
      if effect.answer.Denied? then Unwritten(effect.answer)
      else
        match Marshalled(s.env, s.size, effect.state)
        case None => NotWritable
        case Some(document) => Ready(document, effect.answer)
  }

  // ---- The retry loop ----

  datatype Outcome =
    | Succeeded(answer: Answer)
    | Refusal(answer: Answer)
    | LoadFailed
    | WriteFailed
    | OutOfRetries
    | BadCall(cause: Memory.InputError)

  function CommitAll(r: Register<StateWire>, documents: seq<StateWire>): (after: Register<StateWire>)
    ensures RevisionOf(after) == RevisionOf(r) + |documents|
  {
    if documents == [] then r
    else
      var before := CommitAll(r, documents[..|documents| - 1]);
      Present(RevisionOf(before) + 1, documents[|documents| - 1])
  }

  datatype Retried = Retried(outcome: Outcome, register: Register<StateWire>, attempts: nat)

  /**
   * The loop, given what rival clients commit between each load and the swap that follows it. A quiet attempt
   * decides; a disturbed one is repeated from a fresh load.
   */
  ghost function Retry(s: Setup, r: Register<StateWire>, mutation: TenantState -> Effect, rivals: seq<seq<StateWire>>): (t: Retried)
    ensures t.attempts <= |rivals|
    decreases |rivals|
  {
    if rivals == [] then Retried(OutOfRetries, r, 0)
    else
      match Worked(s, r, mutation)
      case Unreadable => Retried(LoadFailed, r, 1)
      case Unwritten(a) => Retried(Refusal(a), r, 1)
      case NotWritable => Retried(WriteFailed, r, 1)
      case Ready(document, a) =>
        if rivals[0] == [] then Retried(Succeeded(a), Present(RevisionOf(r) + 1, document), 1)
        else
          var rest := Retry(s, CommitAll(r, rivals[0]), mutation, rivals[1..]);
          rest.(attempts := rest.attempts + 1)
  }

  /** The register the n-th attempt loads when every earlier one was disturbed. */
  function Base(r: Register<StateWire>, rivals: seq<seq<StateWire>>, n: nat): (b: Register<StateWire>)
    requires n <= |rivals|
    decreases n
  {
    if n == 0 then r else Base(CommitAll(r, rivals[0]), rivals[1..], n - 1)
  }

  /** What a deciding attempt gives, and the register it leaves, from the register it loaded. */
  ghost predicate Decides(s: Setup, base: Register<StateWire>, mutation: TenantState -> Effect, t: Retried) {
    match Held(s, base)
    case None => t.outcome == LoadFailed && t.register == base
    case Some(st) =>
      && (mutation(st).answer.Denied? ==> t.outcome == Refusal(mutation(st).answer) && t.register == base)
      && (!mutation(st).answer.Denied? ==>
            match Marshalled(s.env, s.size, mutation(st).state)
            case None => t.outcome == WriteFailed && t.register == base
            case Some(document) =>
              t.outcome == Succeeded(mutation(st).answer) && t.register == Present(RevisionOf(base) + 1, document))
  }

  /** How many attempts came before does not matter to what the last one decides. */
  lemma DecidesAlike(s: Setup, base: Register<StateWire>, mutation: TenantState -> Effect, t: Retried, u: Retried)
    ensures t.outcome == u.outcome && t.register == u.register ==> (Decides(s, base, mutation, t) <==> Decides(s, base, mutation, u))
  {
    hide Held, Marshalled;
  }

  lemma AttemptDecides(s: Setup, base: Register<StateWire>, mutation: TenantState -> Effect, rivals: seq<seq<StateWire>>)
    requires rivals != [] && (rivals[0] == [] || !Worked(s, base, mutation).Ready?)
    ensures Decides(s, base, mutation, Retry(s, base, mutation, rivals)) && Retry(s, base, mutation, rivals).attempts == 1
  {
    hide Held, Marshalled;
  }

  /** The n-th attempt had something to write and a rival committed first. */
  ghost predicate Disturbed(s: Setup, r: Register<StateWire>, mutation: TenantState -> Effect, rivals: seq<seq<StateWire>>, n: nat)
    requires n < |rivals|
  {
    rivals[n] != [] && Worked(s, Base(r, rivals, n), mutation).Ready?
  }

  ghost predicate AllDisturbed(s: Setup, r: Register<StateWire>, mutation: TenantState -> Effect, rivals: seq<seq<StateWire>>, n: nat)
    requires n <= |rivals|
  {
    forall m :: 0 <= m < n ==> Disturbed(s, r, mutation, rivals, m)
  }

  lemma DisturbedShift(s: Setup, r: Register<StateWire>, mutation: TenantState -> Effect, rivals: seq<seq<StateWire>>, n: nat)
    requires 0 < n <= |rivals|
    ensures AllDisturbed(s, r, mutation, rivals, n)
            <==> Disturbed(s, r, mutation, rivals, 0) && AllDisturbed(s, CommitAll(r, rivals[0]), mutation, rivals[1..], n - 1)
  {
    hide Worked;
    var next, tail := CommitAll(r, rivals[0]), rivals[1..];
    forall m | 0 < m < n ensures Disturbed(s, r, mutation, rivals, m) <==> Disturbed(s, next, mutation, tail, m - 1) {
      assert rivals[m] == tail[m - 1];
    }
    if AllDisturbed(s, r, mutation, rivals, n) {
      forall m | 0 <= m < n - 1 ensures Disturbed(s, next, mutation, tail, m) { assert Disturbed(s, r, mutation, rivals, m + 1); }
    }
  }

  /**
   * The loop runs out exactly when every attempt had something to write and every one was disturbed; otherwise its
   * last attempt decides alone, on top of whatever the rivals had committed before it loaded.
   */
  lemma {:induction false} RetryDecides(s: Setup, r: Register<StateWire>, mutation: TenantState -> Effect, rivals: seq<seq<StateWire>>)
    ensures var t := Retry(s, r, mutation, rivals);
            && (t.outcome == OutOfRetries <==> AllDisturbed(s, r, mutation, rivals, |rivals|))
            && (t.outcome == OutOfRetries ==> t.attempts == |rivals| && t.register == Base(r, rivals, |rivals|))
            && (t.outcome != OutOfRetries ==>
                  && 0 < t.attempts <= |rivals| && AllDisturbed(s, r, mutation, rivals, t.attempts - 1)
                  && Decides(s, Base(r, rivals, t.attempts - 1), mutation, t))
    decreases |rivals|
  {
    hide Worked, AllDisturbed, Decides;
    if rivals == [] {
      NoneDisturbed(s, r, mutation, rivals);
    } else {
      NoneDisturbed(s, r, mutation, rivals);
      DisturbedShift(s, r, mutation, rivals, |rivals|);
      var t := Retry(s, r, mutation, rivals);
      if t.attempts > 1 { DisturbedShift(s, r, mutation, rivals, t.attempts - 1); }
      if rivals[0] == [] || !Worked(s, r, mutation).Ready? { AttemptDecides(s, r, mutation, rivals); }
      RetryDecides(s, CommitAll(r, rivals[0]), mutation, rivals[1..]);
      var last := Base(r, rivals, if t.attempts > 0 then t.attempts - 1 else 0);
      DecidesAlike(s, last, mutation, t, Retry(s, CommitAll(r, rivals[0]), mutation, rivals[1..]));
      assert Base(r, rivals, 0) == r;
    }
  }

  lemma NoneDisturbed(s: Setup, r: Register<StateWire>, mutation: TenantState -> Effect, rivals: seq<seq<StateWire>>)
    ensures AllDisturbed(s, r, mutation, rivals, 0)
  {
  }

  method LoadState(s: Setup, r: Register<StateWire>) returns (st: Option<TenantState>)
    ensures st == Held(s, r)
  {
    if r.Absent? { return Some(EMPTY); }
    st := UnmarshalTenantState(s.env, s.size, r.document);
  }

  /** Other clients' commits, one after the other. */
  method CommitRivals(store: Store<StateWire>, tenant: string, documents: seq<StateWire>)
    requires store.Valid()
    modifies store.Handle()
    ensures store.Valid() && store.RegisterOf(tenant) == CommitAll(old(store.RegisterOf(tenant)), documents)
    ensures forall t :: t != tenant ==> store.RegisterOf(t) == old(store.RegisterOf(t))
  {
    for i := 0 to |documents|
      invariant store.Valid() && store.RegisterOf(tenant) == CommitAll(old(store.RegisterOf(tenant)), documents[..i])
      invariant forall t :: t != tenant ==> store.RegisterOf(t) == old(store.RegisterOf(t))
    {
      assert documents[..i + 1][..i] == documents[..i];
      var reply := store.CompareAndSwap(false, tenant, RevisionOf(store.RegisterOf(tenant)), documents[i]);
    }
    assert documents[..|documents|] == documents;
  }

  /** A tenant or context that may not be used is refused before the store is asked. */
  method DurableMutate(
    s: Setup, cancelled: bool, store: Store<StateWire>, tenant: string, mutation: TenantState -> Effect, rivals: seq<seq<StateWire>>)
    returns (outcome: Outcome, ghost attempts: nat)
    requires store.Valid() && |rivals| == s.env.limits.maxStorageRetries + 1
    modifies store.Handle()
    ensures store.Valid() && attempts <= s.env.limits.maxStorageRetries + 1
    ensures forall t :: t != tenant ==> store.RegisterOf(t) == old(store.RegisterOf(t))
    ensures match Memory.InputProblem(s.env.limits, cancelled, tenant)
            case Some(e) => outcome == BadCall(e) && store.RegisterOf(tenant) == old(store.RegisterOf(tenant)) && attempts == 0
            case None =>
              Retried(outcome, store.RegisterOf(tenant), attempts) == Retry(s, old(store.RegisterOf(tenant)), mutation, rivals)
  {
    hide Held, Marshalled, Memory.InputProblem;
    ghost var start := store.RegisterOf(tenant);
    attempts := 0;
    var problem := Memory.InputProblem(s.env.limits, cancelled, tenant);
    if problem.Some? { return BadCall(problem.value), attempts; }
    for attempt := 0 to s.env.limits.maxStorageRetries + 1
      invariant store.Valid() && attempts == attempt
      invariant forall t :: t != tenant ==> store.RegisterOf(t) == old(store.RegisterOf(t))
      invariant Retry(s, start, mutation, rivals)
                == var rest := Retry(s, store.RegisterOf(tenant), mutation, rivals[attempt..]); rest.(attempts := rest.attempts + attempt)
    {
      attempts := attempt + 1;
      var loaded := store.Load(false, tenant);
      var st := LoadState(s, loaded.register);
      if st == None { return LoadFailed, attempts; }
      var effect := mutation(st.value);
      if effect.answer.Denied? { return Refusal(effect.answer), attempts; }
      var document := MarshalTenantState(s.env, s.size, effect.state);
      if document == None { return WriteFailed, attempts; }
      assert rivals[attempt..][1..] == rivals[attempt + 1..];
      CommitRivals(store, tenant, rivals[attempt]);
      var reply := store.CompareAndSwap(false, tenant, RevisionOf(loaded.register), document.value);
      if reply == Committed { return Succeeded(effect.answer), attempts; }
    }
    return OutOfRetries, attempts;
  }

  // ---- Any number of clients ----

  /**
   * A finished call's result: a commit, an answer that needed none, an unknown error, or too many conflicts. A
   * position is an index in the chain of committed documents.
   */
  datatype CallResult =
    | Success(answer: Answer, position: nat)
    | Answered(answer: Answer, position: nat)
    | Errored
    | Exhausted

  datatype Phase = Trying | Holding(revision: nat, state: TenantState) | Finished(result: CallResult, at: nat)

  datatype Call = Call(op: Op, started: nat, attempts: nat, phase: Phase)

  datatype Commit = Commit(caller: nat, op: Op, choice: Choice, answer: Answer)

  /** Every document ever committed, who committed it and why, and the calls made so far. */
  datatype World = World(history: seq<StateWire>, log: seq<Commit>, calls: map<nat, Call>)

  ghost function RegisterAt(history: seq<StateWire>, n: nat): (r: Register<StateWire>)
    requires n <= |history|
  {
    if n == 0 then Absent else Present(n, history[n - 1])
  }

  /** The state after the first `n` commits. */
  ghost function StateAt(s: Setup, history: seq<StateWire>, n: nat): (st: Option<TenantState>)
    requires n <= |history|
  {
    Held(s, RegisterAt(history, n))
  }

  datatype Event =
    | Begin(caller: nat, op: Op)
    | Load(caller: nat)
    | Swap(caller: nat, choice: Choice)
    | Lose(caller: nat, choice: Choice)
    | Break(caller: nat)

  ghost predicate At(w: World, c: nat, trying: bool) {
    c in w.calls && (if trying then w.calls[c].phase.Trying? else w.calls[c].phase.Holding?)
  }

  function Moved(w: World, c: nat, phase: Phase): (r: World)
    requires c in w.calls
  {
    w.(calls := w.calls[c := w.calls[c].(phase := phase)])
  }

  /** The document and answer a holding call would swap in, if any. */
  ghost function Offer(s: Setup, call: Call, choice: Choice): (a: Attempt)
    requires call.phase.Holding?
  {
    var effect := Perform(s.env, call.phase.state, call.op, choice);
    if effect.answer.Denied? || ReadOnly(call.op) then Unwritten(effect.answer)
    else
      match Marshalled(s.env, s.size, effect.state)
      case None => NotWritable
      case Some(document) => Ready(document, effect.answer)
  }

  ghost function Appended(w: World, c: nat, choice: Choice, document: StateWire, answer: Answer, result: CallResult): (r: World)
    requires c in w.calls
  {
    World(w.history + [document], w.log + [Commit(c, w.calls[c].op, choice, answer)],
          w.calls[c := w.calls[c].(phase := Finished(result, |w.history| + 1))])
  }

  ghost predicate Next(s: Setup, w: World, e: Event, w': World) {
    match e
    case Begin(c, op) => c !in w.calls && w' == w.(calls := w.calls[c := Call(op, |w.history|, 0, Trying)])
    case Load(c) =>
      && At(w, c, true)
      && (match StateAt(s, w.history, |w.history|)
          case None => w' == Moved(w, c, Finished(Errored, |w.history|))
          case Some(st) =>
            w' == w.(calls := w.calls[c := w.calls[c].(attempts := w.calls[c].attempts + 1, phase := Holding(|w.history|, st))]))
    case Swap(c, choice) =>
      && At(w, c, false) && Honest(w.calls[c].phase.state, w.calls[c].op, choice)
      && var call := w.calls[c];
         (match Offer(s, call, choice)
          case Unwritten(a) => w' == Moved(w, c, Finished(CallResult.Answered(a, call.phase.revision), |w.history|))
          case NotWritable => w' == Moved(w, c, Finished(Errored, |w.history|))
          case Unreadable => false
          case Ready(document, a) =>
            if call.phase.revision == |w.history| then w' == Appended(w, c, choice, document, a, Success(a, |w.history|))
            else if call.attempts > s.env.limits.maxStorageRetries then w' == Moved(w, c, Finished(Exhausted, |w.history|))
            else w' == Moved(w, c, Trying))
    case Lose(c, choice) =>
      && At(w, c, false) && Honest(w.calls[c].phase.state, w.calls[c].op, choice) && w.calls[c].phase.revision == |w.history|
      && var offer := Offer(s, w.calls[c], choice);
         offer.Ready? && w' == Appended(w, c, choice, offer.document, offer.answer, Errored)
    case Break(c) =>
      c in w.calls && !w.calls[c].phase.Finished? && w' == Moved(w, c, Finished(Errored, |w.history|))
  }

  /** Commit `i` is the sequential call applied to the state its predecessor left. */
  ghost predicate Link(s: Setup, history: seq<StateWire>, log: seq<Commit>, i: nat)
    requires i < |history| && i < |log|
  {
    var before := StateAt(s, history, i);
    && before.Some? && !ReadOnly(log[i].op) && Honest(before.value, log[i].op, log[i].choice)
    && var effect := Perform(s.env, before.value, log[i].op, log[i].choice);
       !effect.answer.Denied? && effect.answer == log[i].answer && Marshalled(s.env, s.size, effect.state) == Some(history[i])
  }

  ghost predicate Chain(s: Setup, history: seq<StateWire>, log: seq<Commit>) {
    |log| == |history| && forall i :: 0 <= i < |log| ==> Link(s, history, log, i)
  }

  /** An answer given without a commit is a sequential call's own, made at that point and leaving the state alone. */
  ghost predicate AnsweredAt(s: Setup, history: seq<StateWire>, op: Op, answer: Answer, p: nat)
    requires p <= |history|
  {
    && (answer.Denied? || ReadOnly(op)) && StateAt(s, history, p).Some?
    && var st := StateAt(s, history, p).value;
       exists choice :: Honest(st, op, choice) && Perform(s.env, st, op, choice) == Effect(st, answer)
  }

  ghost predicate CallOk(s: Setup, history: seq<StateWire>, log: seq<Commit>, c: nat, call: Call)
    requires |log| == |history|
  {
    && call.started <= |history| && call.attempts <= s.env.limits.maxStorageRetries + 1
    && match call.phase
       case Trying => call.attempts <= s.env.limits.maxStorageRetries
       case Holding(revision, st) => call.started <= revision <= |history| && StateAt(s, history, revision) == Some(st)
       case Finished(result, at) =>
         && call.started <= at <= |history|
         && (result.Success? ==>
               call.started <= result.position < at && log[result.position].caller == c
               && log[result.position].op == call.op && log[result.position].answer == result.answer)
         && (result.Answered? ==> call.started <= result.position <= at && AnsweredAt(s, history, call.op, result.answer, result.position))
         && (result.Exhausted? ==> call.attempts == s.env.limits.maxStorageRetries + 1)
  }

  /**
   * Whoever committed was asked to, began before committing and has finished, reporting that commit or an unknown
   * error: a call that reports a refusal, a plan or exhaustion committed nothing.
   */
  ghost predicate CommitOk(w: World, i: nat)
    requires i < |w.log|
  {
    var c := w.log[i].caller;
    && c in w.calls && w.calls[c].phase.Finished? && w.calls[c].op == w.log[i].op
    && w.calls[c].started <= i < w.calls[c].phase.at
    && var result := w.calls[c].phase.result; (result == Success(w.log[i].answer, i) || result == Errored)
  }

  ghost predicate Once(log: seq<Commit>) { forall i, j :: 0 <= i < j < |log| ==> log[i].caller != log[j].caller }

  ghost predicate WorldInv(s: Setup, w: World) {
    && Chain(s, w.history, w.log) && Once(w.log)
    && (forall c :: c in w.calls ==> CallOk(s, w.history, w.log, c, w.calls[c]))
    && (forall i :: 0 <= i < |w.log| ==> CommitOk(w, i))
  }

  // ---- Every step keeps it ----

  lemma StateAtKept(s: Setup, history: seq<StateWire>, document: StateWire, n: nat)
    requires n <= |history|
    ensures StateAt(s, history + [document], n) == StateAt(s, history, n)
  {
  }

  lemma ChainGrows(s: Setup, history: seq<StateWire>, log: seq<Commit>, document: StateWire, commit: Commit)
    requires Chain(s, history, log) && StateAt(s, history, |history|).Some?
    requires !ReadOnly(commit.op) && Honest(StateAt(s, history, |history|).value, commit.op, commit.choice)
    requires var effect := Perform(s.env, StateAt(s, history, |history|).value, commit.op, commit.choice);
             !effect.answer.Denied? && effect.answer == commit.answer && Marshalled(s.env, s.size, effect.state) == Some(document)
    ensures Chain(s, history + [document], log + [commit])
  {
    hide Perform, Marshalled, StateAt, Honest;
    var h, l := history + [document], log + [commit];
    forall i | 0 <= i < |l| ensures Link(s, h, l, i) {
      StateAtKept(s, history, document, i);
      if i < |log| { assert Link(s, history, log, i) && h[i] == history[i] && l[i] == log[i]; }
    }
  }

  lemma CallKept(s: Setup, history: seq<StateWire>, log: seq<Commit>, document: StateWire, commit: Commit, c: nat, call: Call)
    requires |log| == |history| && CallOk(s, history, log, c, call)
    ensures CallOk(s, history + [document], log + [commit], c, call)
  {
    hide StateAt, Perform, Honest;
    match call.phase
    case Trying =>
    case Holding(revision, st) => StateAtKept(s, history, document, revision);
    case Finished(result, at) =>
      if result.Success? { assert (log + [commit])[result.position] == log[result.position]; }
      if result.Answered? { StateAtKept(s, history, document, result.position); }
  }

  /** Replacing one call that has not committed. */
  lemma MoveKeeps(s: Setup, w: World, c: nat, call: Call)
    requires WorldInv(s, w) && CallOk(s, w.history, w.log, c, call) && (c in w.calls ==> !w.calls[c].phase.Finished?)
    ensures WorldInv(s, w.(calls := w.calls[c := call]))
  {
    hide Chain, Once, CallOk;
    var after := w.(calls := w.calls[c := call]);
    forall i | 0 <= i < |w.log| ensures CommitOk(after, i) { assert CommitOk(w, i); }
  }

  lemma AppendKeeps(s: Setup, w: World, c: nat, choice: Choice, document: StateWire, answer: Answer, result: CallResult)
    requires WorldInv(s, w) && c in w.calls && w.calls[c].phase.Holding? && w.calls[c].phase.revision == |w.history|
    requires Honest(w.calls[c].phase.state, w.calls[c].op, choice)
    requires Offer(s, w.calls[c], choice) == Ready(document, answer)
    requires result == Errored || result == Success(answer, |w.history|)
    ensures WorldInv(s, Appended(w, c, choice, document, answer, result))
  {
    hide Chain, Perform, Marshalled, StateAt, Link, Honest;
    var call := w.calls[c];
    var commit := Commit(c, call.op, choice, answer);
    var after := Appended(w, c, choice, document, answer, result);
    Counts(s, w);
    OkOf(s, w, c);
    ChainGrowsBy(s, w, c, choice, document, answer);
    forall x | x in after.calls ensures CallOk(s, after.history, after.log, x, after.calls[x]) {
      if x != c { CallKept(s, w.history, w.log, document, commit, x, w.calls[x]); }
    }
    forall i | 0 <= i < |after.log| ensures CommitOk(after, i) {
      if i < |w.log| { assert CommitOk(w, i); }
    }
    forall i, j | 0 <= i < j < |after.log| ensures after.log[i].caller != after.log[j].caller { assert CommitOk(w, i); }
  }

  lemma ChainGrowsBy(s: Setup, w: World, c: nat, choice: Choice, document: StateWire, answer: Answer)
    requires WorldInv(s, w) && c in w.calls && w.calls[c].phase.Holding? && w.calls[c].phase.revision == |w.history|
    requires Honest(w.calls[c].phase.state, w.calls[c].op, choice)
    requires Offer(s, w.calls[c], choice) == Ready(document, answer)
    ensures Chain(s, w.history + [document], w.log + [Commit(c, w.calls[c].op, choice, answer)])
  {
    hide Perform, Marshalled, StateAt, Link, Honest;
    assert CallOk(s, w.history, w.log, c, w.calls[c]);
    ChainGrows(s, w.history, w.log, document, Commit(c, w.calls[c].op, choice, answer));
  }

  lemma SwapKeeps(s: Setup, w: World, c: nat, choice: Choice, w': World)
    requires WorldInv(s, w) && Next(s, w, Swap(c, choice), w')
    ensures WorldInv(s, w')
  {
    hide Chain, Once, Perform, Marshalled, StateAt, WorldInv, Honest;
    var call := w.calls[c];
    OkOf(s, w, c);
    match Offer(s, call, choice)
    case Unwritten(a) =>
      AnswerIsSequential(s, w, c, choice, a);
      MoveKeeps(s, w, c, call.(phase := Finished(CallResult.Answered(a, call.phase.revision), |w.history|)));
    case NotWritable => MoveKeeps(s, w, c, call.(phase := Finished(Errored, |w.history|)));
    case Ready(document, a) =>
      if call.phase.revision == |w.history| {
        AppendKeeps(s, w, c, choice, document, a, Success(a, |w.history|));
      } else if call.attempts > s.env.limits.maxStorageRetries {
        MoveKeeps(s, w, c, call.(phase := Finished(Exhausted, |w.history|)));
      } else {
        MoveKeeps(s, w, c, call.(phase := Trying));
      }
  }

  lemma OkOf(s: Setup, w: World, c: nat)
    requires WorldInv(s, w) && c in w.calls
    ensures |w.log| == |w.history| && CallOk(s, w.history, w.log, c, w.calls[c])
  {
  }

  lemma AnswerIsSequential(s: Setup, w: World, c: nat, choice: Choice, a: Answer)
    requires |w.log| == |w.history| && c in w.calls && w.calls[c].phase.Holding? && CallOk(s, w.history, w.log, c, w.calls[c])
    requires Honest(w.calls[c].phase.state, w.calls[c].op, choice)
    requires Offer(s, w.calls[c], choice) == Unwritten(a)
    ensures w.calls[c].phase.revision <= |w.history|
    ensures AnsweredAt(s, w.history, w.calls[c].op, a, w.calls[c].phase.revision)
  {
    hide StateAt, Perform, Honest;
    FailureChangesNothing(s.env, w.calls[c].phase.state, w.calls[c].op, choice);
  }

  lemma StepKeepsWorld(s: Setup, w: World, e: Event, w': World)
    requires WorldInv(s, w) && Next(s, w, e, w')
    ensures WorldInv(s, w')
  {
    hide Chain, Once, Perform, Marshalled, StateAt, WorldInv, Honest;
    if e.caller in w.calls { OkOf(s, w, e.caller); }
    match e
    case Begin(c, op) =>
      Counts(s, w);
      MoveKeeps(s, w, c, Call(op, |w.history|, 0, Trying));
    case Load(c) => MoveKeeps(s, w, c, w'.calls[c]);
    case Swap(c, choice) => SwapKeeps(s, w, c, choice, w');
    case Lose(c, choice) =>
      var offer := Offer(s, w.calls[c], choice);
      AppendKeeps(s, w, c, choice, offer.document, offer.answer, Errored);
    case Break(c) => MoveKeeps(s, w, c, w.calls[c].(phase := Finished(Errored, |w.history|)));
  }

  lemma Counts(s: Setup, w: World)
    requires WorldInv(s, w)
    ensures |w.log| == |w.history|
  {
  }

  /** A swap in the run is a write to the register both stores provide, and the register's revision counts commits. */
  lemma SwapIsARegisterWrite(s: Setup, w: World, c: nat, choice: Choice, w': World)
    requires Next(s, w, Swap(c, choice), w') && Offer(s, w.calls[c], choice).Ready?
    ensures RevisionOf(RegisterAt(w.history, |w.history|)) == |w.history|
    ensures RegisterAt(w'.history, |w'.history|)
            == Written(RegisterAt(w.history, |w.history|), w.calls[c].phase.revision, Offer(s, w.calls[c], choice).document)
  {
    hide Perform, Marshalled, StateAt;
  }

  // ---- Whole runs ----

  ghost predicate IsRun(s: Setup, ws: seq<World>, es: seq<Event>) {
    && |ws| == |es| + 1 && ws[0] == World([], [], map[])
    && forall i :: 0 <= i < |es| ==> Next(s, ws[i], es[i], ws[i + 1])
  }

  lemma {:induction false} RunKeepsWorld(s: Setup, ws: seq<World>, es: seq<Event>, i: nat)
    requires IsRun(s, ws, es) && i < |ws|
    ensures WorldInv(s, ws[i])
  {
    hide WorldInv, Next;
    if i == 0 {
      NothingYet(s);
    } else {
      RunKeepsWorld(s, ws, es, i - 1);
      assert Next(s, ws[i - 1], es[i - 1], ws[i]);
      StepKeepsWorld(s, ws[i - 1], es[i - 1], ws[i]);
    }
  }

  lemma NothingYet(s: Setup)
    ensures WorldInv(s, World([], [], map[]))
  {
  }

  /**
   * In every interleaving: commits form one chain in which each is the sequential call applied to its immediate
   * predecessor; no call commits twice, tries more often than the retry limit allows or gives up before it; and a call
   * that reports success made exactly one commit, between its start and its end, with the sequential call's own answer. A call
   * that reports a refusal, a dry-run plan or exhaustion made none, and a refusal or plan is the sequential answer
   * at a point of the chain between its start and its end.
   */
  lemma CommitsAreOneSequentialChain(s: Setup, ws: seq<World>, es: seq<Event>, i: nat)
    requires IsRun(s, ws, es) && i < |ws|
    ensures Chain(s, ws[i].history, ws[i].log) && Once(ws[i].log)
    ensures forall c :: c in ws[i].calls ==> CallOk(s, ws[i].history, ws[i].log, c, ws[i].calls[c])
    ensures forall k :: 0 <= k < |ws[i].log| ==> CommitOk(ws[i], k)
  {
    RunKeepsWorld(s, ws, es, i);
  }

  lemma NextStateKeepsInv(s: Setup, before: TenantState, op: Op, choice: Choice, document: StateWire)
    requires Inv(s.env, before) && Marshalled(s.env, s.size, Perform(s.env, before, op, choice).state) == Some(document)
    ensures Unmarshalled(s.env, s.size, document).Some? ==> Inv(s.env, Unmarshalled(s.env, s.size, document).value)
  {
    hide Perform, Marshalled, Unmarshalled, Inv, NormalState, Loadable;
    PerformKeeps(s.env, before, op, choice);
    DocumentReadsBackExactlyWhen(s.env, s.size, Perform(s.env, before, op, choice).state);
    NormalStateKeepsInv(s.env, Perform(s.env, before, op, choice).state);
  }

  /** Every state on the chain that can be read keeps the provider's invariant. */
  lemma {:induction false} ChainStatesKeepInv(s: Setup, history: seq<StateWire>, log: seq<Commit>, n: nat)
    requires Chain(s, history, log) && n <= |history| && StateAt(s, history, n).Some?
    ensures Inv(s.env, StateAt(s, history, n).value)
    decreases n
  {
    hide Perform, Marshalled, Unmarshalled, Inv;
    if n == 0 {
      EmptyIsInv(s.env);
    } else {
      assert Link(s, history, log, n - 1);
      ChainStatesKeepInv(s, history, log, n - 1);
      NextStateKeepsInv(s, StateAt(s, history, n - 1).value, log[n - 1].op, log[n - 1].choice, history[n - 1]);
    }
  }
}
