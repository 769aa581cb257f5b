/** Invalidation hints: per-stream sequences, gap accounting and the bounded stream table. */
module Invalidations {
  import opened Model
  import opened Keyed
  import opened Fleet

  const MAX_UINT64: nat := 0xFFFF_FFFF_FFFF_FFFF

  datatype Hint = Hint(tenant: string, stream: string, sequence: nat, revision: string, observedAt: int)

  datatype Table = Table(streams: map<string, nat>, gaps: nat, convergence: int, convergenceRevision: string)

  datatype Disposition = InvalidHint | StreamLimit | Duplicate | OutOfOrder | Current | NeedsRefresh

  datatype Note = Note(disposition: Disposition, gap: bool, previous: nat)

  predicate HintOk(c: Config, h: Hint) {
    h.tenant == c.tenant && IdentityOk(h.stream) && h.sequence != 0 && IdentityOk(h.revision) && h.observedAt != 0
  }

  function LastOf(t: Table, stream: string): (n: nat) { if stream in t.streams then t.streams[stream] else 0 }

  /** Addition as the source performs it, on 64 bits. */
  function Successor(n: nat): (r: nat) { (n + 1) % (MAX_UINT64 + 1) }

  predicate GapAfter(last: nat, sequence: nat) { if last == 0 then sequence > 1 else sequence > Successor(last) }

  function NoteOf(c: Config, t: Table, h: Hint, active: Option<string>): (n: Note) {
    var last := LastOf(t, h.stream);
    if !HintOk(c, h) then Note(InvalidHint, false, 0)
    else if h.stream !in t.streams && |t.streams| >= c.maxStreams then Note(StreamLimit, false, 0)
    else if h.sequence == last then Note(Duplicate, false, last)
    else if h.sequence < last then Note(OutOfOrder, false, last)
    else
      var gap := GapAfter(last, h.sequence);
      Note(if !gap && active == Some(h.revision) then Current else NeedsRefresh, gap, last)
  }

  function Recorded(c: Config, t: Table, h: Hint, active: Option<string>, now: int): (r: Table) {
    var n := NoteOf(c, t, h, active);
    if n.disposition != Current && n.disposition != NeedsRefresh then t
    else
      var u := t.(streams := t.streams[h.stream := h.sequence], gaps := if n.gap && t.gaps < MAX_UINT64 then t.gaps + 1 else t.gaps);
      if n.disposition == Current then u else u.(convergence := now + c.convergenceWindow, convergenceRevision := h.revision)
  }

  /** The latest requested revision is overdue and still not active. */
  predicate Breached(t: Table, active: Option<string>, now: int) {
    t.convergence != 0 && now > t.convergence && active != Some(t.convergenceRevision)
  }

  class InvalidationTable {
    const config: Config
    var streams: map<string, nat>
    var gaps: nat
    var convergence: int
    var convergenceRevision: string

    constructor (config: Config)
      ensures this.config == config && View() == Table(map[], 0, 0, "")
    {
      this.config := config;
      streams, gaps, convergence, convergenceRevision := map[], 0, 0, "";
    }

    function View(): (t: Table)
      reads this
    {
      Table(streams, gaps, convergence, convergenceRevision)
    }

    /** The region of an invalidation under the lock; `NeedsRefresh` continues with a refresh. */
    method Accept(h: Hint, active: Option<string>, now: int) returns (n: Note)
      modifies this
      ensures n == NoteOf(config, old(View()), h, active) && View() == Recorded(config, old(View()), h, active, now)
    {
      if !HintOk(config, h) { return Note(InvalidHint, false, 0); }
      if h.stream !in streams && |streams| >= config.maxStreams { return Note(StreamLimit, false, 0); }
      var last := if h.stream in streams then streams[h.stream] else 0;
      if h.sequence == last { return Note(Duplicate, false, last); }
      if h.sequence < last { return Note(OutOfOrder, false, last); }
      var gap := if last == 0 then h.sequence > 1 else h.sequence > Successor(last);
      streams := streams[h.stream := h.sequence];
      if gap && gaps < MAX_UINT64 { gaps := gaps + 1; }
      if !gap && active == Some(h.revision) { return Note(Current, gap, last); }
      convergence, convergenceRevision := now + config.convergenceWindow, h.revision;
      return Note(NeedsRefresh, gap, last);
    }

    /** What a status report says about convergence. */
    method Convergence(active: Option<string>, now: int) returns (deadline: int, breached: bool)
      ensures deadline == convergence && breached == Breached(View(), active, now)
    {
      deadline, breached := convergence, false;
      if deadline != 0 && now > deadline { breached := active == None || active.value != convergenceRevision; }
    }
  }

  // ---- Accounting over a run ----

  datatype Arrival = Arrival(hint: Hint, active: Option<string>, now: int)

  /** The table with what it has accepted per stream, how many gaps were reported, and on which streams. */
  datatype Ledger = Ledger(table: Table, accepted: map<string, seq<nat>>, gapEvents: nat, gapped: set<string>)

  const NEW := Ledger(Table(map[], 0, 0, ""), map[], 0, {})

  function AcceptedOn(l: Ledger, stream: string): (a: seq<nat>) { if stream in l.accepted then l.accepted[stream] else [] }

  function Entered(c: Config, l: Ledger, a: Arrival): (r: Ledger) {
    var n, h := NoteOf(c, l.table, a.hint, a.active), a.hint;
    var table := Recorded(c, l.table, h, a.active, a.now);
    if n.disposition != Current && n.disposition != NeedsRefresh then l.(table := table)
    else
      Ledger(table, l.accepted[h.stream := AcceptedOn(l, h.stream) + [h.sequence]],
             if n.gap then l.gapEvents + 1 else l.gapEvents, if n.gap then l.gapped + {h.stream} else l.gapped)
  }

  function LedgerOf(c: Config, arrivals: seq<Arrival>): (l: Ledger) {
    if arrivals == [] then NEW else Entered(c, LedgerOf(c, arrivals[..|arrivals| - 1]), arrivals[|arrivals| - 1])
  }

  ghost predicate Increasing(a: seq<nat>) { forall i, j :: 0 <= i < j < |a| ==> a[i] < a[j] }

  ghost predicate Contiguous(a: seq<nat>) { forall i :: 0 <= i < |a| ==> a[i] == i + 1 }

  /** One stream's acceptances end at the retained sequence, strictly increase, and miss nothing unless a gap was reported. */
  ghost predicate StreamOk(l: Ledger, stream: string)
    requires stream in l.table.streams && stream in l.accepted
  {
    var a := l.accepted[stream];
    && a != [] && a[|a| - 1] == l.table.streams[stream] && 1 <= a[0] && l.table.streams[stream] <= MAX_UINT64
    && Increasing(a) && (stream !in l.gapped ==> Contiguous(a))
  }

  ghost predicate LedgerOk(c: Config, l: Ledger) {
    && l.accepted.Keys == l.table.streams.Keys && |l.table.streams| <= c.maxStreams
    && (forall s :: s in l.table.streams ==> StreamOk(l, s))
    && l.table.gaps == if l.gapEvents < MAX_UINT64 then l.gapEvents else MAX_UINT64
  }

  /** Where the successor is computed it cannot wrap: a later 64-bit sequence was just seen. */
  lemma SuccessorIsExact(last: nat, sequence: nat)
    requires last < sequence <= MAX_UINT64
    ensures Successor(last) == last + 1
  {
  }

  lemma AppendOne(a: seq<nat>, n: nat)
    requires Increasing(a) && (a != [] ==> a[|a| - 1] < n)
    ensures Increasing(a + [n])
    ensures Contiguous(a) && n == |a| + 1 ==> Contiguous(a + [n])
  {
  }

  lemma ContiguousCount(a: seq<nat>)
    requires Contiguous(a) && a != []
    ensures a[|a| - 1] == |a|
  {
  }

  lemma EnteredStreamOk(c: Config, l: Ledger, a: Arrival)
    requires LedgerOk(c, l) && a.hint.sequence <= MAX_UINT64
    requires NoteOf(c, l.table, a.hint, a.active).disposition in {Current, NeedsRefresh}
    ensures StreamOk(Entered(c, l, a), a.hint.stream)
  {
    var h, s := a.hint, a.hint.stream;
    var before, last := AcceptedOn(l, s), LastOf(l.table, s);
    if s in l.table.streams {
      assert StreamOk(l, s);
      if Contiguous(before) { ContiguousCount(before); }
    }
    SuccessorIsExact(last, h.sequence);
    AppendOne(before, h.sequence);
  }

  lemma EnteredKeeps(c: Config, l: Ledger, a: Arrival)
    requires LedgerOk(c, l) && a.hint.sequence <= MAX_UINT64
    ensures LedgerOk(c, Entered(c, l, a))
  {
    hide GapAfter, Increasing, Contiguous, HintOk;
    var after, n := Entered(c, l, a), NoteOf(c, l.table, a.hint, a.active);
    if n.disposition == Current || n.disposition == NeedsRefresh {
      EnteredStreamOk(c, l, a);
      MapGrows(l.table.streams, a.hint.stream, a.hint.sequence);
      forall s | s in after.table.streams ensures StreamOk(after, s) {
        if s != a.hint.stream { assert StreamOk(l, s); }
      }
    }
  }

  /**
   * Over every sequence of hints: accepted sequences strictly increase per stream and end at the retained one, a
   * stream with no reported gap has accepted exactly one to its last, the table stays bounded, and the gap counter
   * is the number of gaps reported, saturated at the largest 64-bit value.
   */
  lemma {:induction false} InvalidationAccounting(c: Config, arrivals: seq<Arrival>)
    requires Sane(c) && forall i :: 0 <= i < |arrivals| ==> arrivals[i].hint.sequence <= MAX_UINT64
    ensures LedgerOk(c, LedgerOf(c, arrivals))
  {
    if arrivals != [] {
      InvalidationAccounting(c, arrivals[..|arrivals| - 1]);
      EnteredKeeps(c, LedgerOf(c, arrivals[..|arrivals| - 1]), arrivals[|arrivals| - 1]);
    }
  }

  /** What the stream last accepted, zero before its first hint. */
  function Newest(l: Ledger, stream: string): (n: nat) {
    var a := AcceptedOn(l, stream); if a == [] then 0 else a[|a| - 1]
  }

  /** A hint judged by what its stream has accepted so far; successors are exact, not taken on 64 bits. */
  ghost predicate Judged(c: Config, l: Ledger, a: Arrival, n: Note) {
    var h, known, last := a.hint, a.hint.stream in l.accepted, Newest(l, a.hint.stream);
    && (n.disposition == InvalidHint <==> !HintOk(c, h))
    && (n.disposition == StreamLimit <==> HintOk(c, h) && !known && |l.accepted| >= c.maxStreams)
    && (n.disposition == Duplicate <==> HintOk(c, h) && known && h.sequence == last)
    && (n.disposition == OutOfOrder <==> HintOk(c, h) && known && h.sequence < last)
    && (n.gap <==> HintOk(c, h) && (known || |l.accepted| < c.maxStreams) && h.sequence > last + 1)
    && (n.disposition == Current <==>
          HintOk(c, h) && (known || |l.accepted| < c.maxStreams) && h.sequence == last + 1 && a.active == Some(h.revision))
  }

  /** Over every sequence of hints, each is judged by exactly the ones its stream accepted before. */
  lemma HintsAreJudgedByHistory(c: Config, arrivals: seq<Arrival>, i: nat)
    requires Sane(c) && i < |arrivals| && forall k :: 0 <= k < |arrivals| ==> arrivals[k].hint.sequence <= MAX_UINT64
    ensures var l := LedgerOf(c, arrivals[..i]);
            Judged(c, l, arrivals[i], NoteOf(c, l.table, arrivals[i].hint, arrivals[i].active))
  {
    hide LedgerOf, LedgerOk, HintOk, Newest, LastOf, Successor;
    InvalidationAccounting(c, arrivals[..i]);
    var l, h := LedgerOf(c, arrivals[..i]), arrivals[i].hint;
    NewestIsRetained(c, l, h.stream);
    HintHasASequence(c, h);
    if LastOf(l.table, h.stream) < h.sequence { SuccessorIsExact(LastOf(l.table, h.stream), h.sequence); }
  }

  lemma NewestIsRetained(c: Config, l: Ledger, stream: string)
    requires LedgerOk(c, l)
    ensures stream in l.accepted <==> stream in l.table.streams
    ensures |l.accepted| == |l.table.streams|
    ensures Newest(l, stream) == LastOf(l.table, stream) && (stream in l.table.streams <==> LastOf(l.table, stream) > 0)
  {
    hide Increasing, Contiguous;
    assert |l.accepted| == |l.accepted.Keys| && |l.table.streams| == |l.table.streams.Keys|;
    if stream in l.table.streams {
      assert StreamOk(l, stream);
      FirstIsLeast(l.accepted[stream]);
    }
  }

  lemma FirstIsLeast(a: seq<nat>)
    requires a != [] && Increasing(a)
    ensures a[0] <= a[|a| - 1]
  {
  }

  lemma HintHasASequence(c: Config, h: Hint)
    ensures HintOk(c, h) ==> h.sequence > 0
  {
  }

  /** A stream on which no gap was ever reported has accepted 1, 2, ..., last. */
  lemma NoGapMeansNothingMissed(c: Config, arrivals: seq<Arrival>, stream: string)
    requires Sane(c) && forall i :: 0 <= i < |arrivals| ==> arrivals[i].hint.sequence <= MAX_UINT64
    requires stream in LedgerOf(c, arrivals).table.streams && stream !in LedgerOf(c, arrivals).gapped
    ensures var l := LedgerOf(c, arrivals);
            |AcceptedOn(l, stream)| == l.table.streams[stream] && Contiguous(AcceptedOn(l, stream))
  {
    hide LedgerOf, Increasing;
    InvalidationAccounting(c, arrivals);
    var l := LedgerOf(c, arrivals);
    assert StreamOk(l, stream);
    ContiguousCount(l.accepted[stream]);
  }

  /** Duplicates and reordered hints change nothing, whatever is active. */
  lemma OldHintsChangeNothing(c: Config, t: Table, h: Hint, active: Option<string>, now: int)
    requires h.stream in t.streams && h.sequence <= t.streams[h.stream]
    ensures Recorded(c, t, h, active, now) == t
    ensures HintOk(c, h) ==> NoteOf(c, t, h, active).disposition == if h.sequence == t.streams[h.stream] then Duplicate else OutOfOrder
  {
  }

  // ---- Convergence ----

  /** The i-th hint asked for a revision that was not active. */
  ghost predicate Pending(c: Config, arrivals: seq<Arrival>, i: nat)
    requires i < |arrivals|
  {
    NoteOf(c, LedgerOf(c, arrivals[..i]).table, arrivals[i].hint, arrivals[i].active).disposition == NeedsRefresh
  }

  ghost predicate LatestPending(c: Config, arrivals: seq<Arrival>, i: int) {
    0 <= i < |arrivals| && Pending(c, arrivals, i) && forall j :: i < j < |arrivals| ==> !Pending(c, arrivals, j)
  }

  ghost predicate DeadlineOf(c: Config, t: Table, a: Arrival) {
    t.convergence == a.now + c.convergenceWindow && t.convergenceRevision == a.hint.revision
  }

  ghost predicate NoDeadline(c: Config, arrivals: seq<Arrival>, t: Table) {
    t.convergence == 0 && forall i :: 0 <= i < |arrivals| ==> !Pending(c, arrivals, i)
  }

  lemma PendingInPrefix(c: Config, arrivals: seq<Arrival>, i: nat)
    requires arrivals != [] && i < |arrivals| - 1
    ensures Pending(c, arrivals[..|arrivals| - 1], i) <==> Pending(c, arrivals, i)
  {
    assert arrivals[..|arrivals| - 1][..i] == arrivals[..i];
  }

  /** The last hint sets the deadline if it asks for a refresh, and leaves it otherwise. */
  lemma DeadlineMoves(c: Config, arrivals: seq<Arrival>)
    requires arrivals != []
    ensures var last := |arrivals| - 1;
            var before, t := LedgerOf(c, arrivals[..last]).table, LedgerOf(c, arrivals).table;
            if Pending(c, arrivals, last) then DeadlineOf(c, t, arrivals[last])
            else t.convergence == before.convergence && t.convergenceRevision == before.convergenceRevision
  {
  }

  lemma {:induction false} DeadlineIsTheLatest(c: Config, arrivals: seq<Arrival>) returns (i: int)
    ensures if i < 0 then NoDeadline(c, arrivals, LedgerOf(c, arrivals).table)
            else LatestPending(c, arrivals, i) && DeadlineOf(c, LedgerOf(c, arrivals).table, arrivals[i])
  {
    i := -1;
    if arrivals != [] {
      var front, last := arrivals[..|arrivals| - 1], |arrivals| - 1;
      i := DeadlineIsTheLatest(c, front);
      DeadlineMoves(c, arrivals);
      hide LedgerOf, Pending;
      forall j: nat | j < last ensures Pending(c, front, j) <==> Pending(c, arrivals, j) { PendingInPrefix(c, arrivals, j); }
      if Pending(c, arrivals, last) { i := last; }
    }
  }

  /**
   * Convergence is reported breached exactly when the latest hint that asked for another revision is overdue by the
   * convergence window and that revision is still not active; later duplicates, reorderings and hints for the active
   * revision neither extend nor clear the deadline.
   */
  lemma BreachIsALateUnmetHint(c: Config, arrivals: seq<Arrival>, active: Option<string>, now: int)
    ensures Breached(LedgerOf(c, arrivals).table, active, now) <==>
              exists i :: LatestPending(c, arrivals, i) && arrivals[i].now + c.convergenceWindow != 0
                          && now > arrivals[i].now + c.convergenceWindow && active != Some(arrivals[i].hint.revision)
  {
    var i := DeadlineIsTheLatest(c, arrivals);
    hide LedgerOf, Pending;
  }
}
