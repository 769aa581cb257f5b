/** One tenant's whole state as a stored document: writing it, reading it back, and exactly when that succeeds. */
module StateDocument {
  import opened Ordering
  import opened Keyed
  import opened Model
  import opened GroupForest
  import opened Codec
  import opened CodecMeaning
  import opened Portable
  import opened Tenant
  import opened TenantInvariant
  import opened Memory

  const STATE_VERSION := 1

  datatype RecordWire = RecordWire(definition: DefinitionWire, deleted: bool)

  datatype StageWire = StageWire(id: nat, definition: DefinitionWire, expected: nat, applyAt: int, actor: string)

  datatype StateWire = StateWire(
    version: int, records: seq<RecordWire>, groups: seq<GroupWire>, audit: seq<AuditEntry>, staged: seq<StageWire>, nextStage: nat)

  /** The encoded length of a document, whatever the text encoding is. */
  type Size = StateWire -> nat

  // ---- Arranging a map by key ----

  ghost function Arranged<K(!new), V>(leq: (K, K) -> bool, m: map<K, V>): (r: seq<V>)
    ensures |r| == |m|
  {
    var ks := Ascending(leq, m.Keys);
    assert |m| == |m.Keys|;
    assert forall i :: 0 <= i < |ks| ==> ks[i] in m.Keys;
    seq(|ks|, i requires 0 <= i < |ks| => m[ks[i]])
  }

  lemma ArrangedAt<K(!new), V>(leq: (K, K) -> bool, m: map<K, V>, i: nat)
    requires i < |m|
    ensures |Ascending(leq, m.Keys)| == |m| && Ascending(leq, m.Keys)[i] in m
    ensures Arranged(leq, m)[i] == m[Ascending(leq, m.Keys)[i]]
  {
    assert |m| == |m.Keys|;
    assert Ascending(leq, m.Keys)[i] in m.Keys;
  }

  lemma ArrangedAll<K(!new), V(!new)>(leq: (K, K) -> bool, m: map<K, V>)
    ensures forall v :: v in Arranged(leq, m) <==> exists k :: k in m && m[k] == v
  {
    var r, ks := Arranged(leq, m), Ascending(leq, m.Keys);
    assert |ks| == |m|;
    forall v | v in r ensures exists k :: k in m && m[k] == v {
      var i :| 0 <= i < |r| && r[i] == v;
      ArrangedAt(leq, m, i);
      assert m[ks[i]] == v;
    }
    forall k | k in m ensures m[k] in r {
      assert k in m.Keys && k in ks;
      var i :| 0 <= i < |ks| && ks[i] == k;
      ArrangedAt(leq, m, i);
    }
  }

  lemma SameSize<K>(a: set<K>, b: set<K>)
    requires a <= b && |a| == |b|
    ensures a == b
  {
    assert b == a + (b - a) && |b| == |a| + |b - a|;
  }

  lemma IndexWithin<K, V>(r: seq<V>, key: V -> K, m: map<K, V>, k: K)
    requires k in Index(r, key) && forall i :: 0 <= i < |r| ==> key(r[i]) in m && m[key(r[i])] == r[i]
    ensures k in m && Index(r, key)[k] == m[k]
  {
    var i :| 0 <= i < |r| && r[i] == Index(r, key)[k];
  }

  lemma IndexIs<K, V>(r: seq<V>, key: V -> K, m: map<K, V>)
    requires DistinctKeys(r, key) && |m| == |r|
    requires forall i :: 0 <= i < |r| ==> key(r[i]) in m && m[key(r[i])] == r[i]
    ensures Index(r, key) == m
  {
    IndexDistinct(r, key);
    var index := Index(r, key);
    forall k | k in index ensures k in m && index[k] == m[k] { IndexWithin(r, key, m, k); }
    hide Index, DistinctKeys;
    assert |index| == |index.Keys| && |m| == |m.Keys|;
    SameSize(index.Keys, m.Keys);
  }

  lemma KeyedAt<K(!new), V>(leq: (K, K) -> bool, m: map<K, V>, key: V -> K, i: nat)
    requires i < |m| && forall k :: k in m ==> key(m[k]) == k
    ensures |Ascending(leq, m.Keys)| == |m|
    ensures var x := Arranged(leq, m)[i]; key(x) == Ascending(leq, m.Keys)[i] && key(x) in m && m[key(x)] == x
  {
    ArrangedAt(leq, m, i);
  }

  /** A map whose entries carry their keys is the index of its own arrangement. */
  lemma ArrangedIndexes<K(!new), V>(leq: (K, K) -> bool, m: map<K, V>, key: V -> K)
    requires forall k :: k in m ==> key(m[k]) == k
    ensures DistinctKeys(Arranged(leq, m), key) && Index(Arranged(leq, m), key) == m
  {
    var r, ks := Arranged(leq, m), Ascending(leq, m.Keys);
    assert |ks| == |m.Keys| == |m|;
    forall i | 0 <= i < |r| ensures key(r[i]) == ks[i] && key(r[i]) in m && m[key(r[i])] == r[i] { KeyedAt(leq, m, key, i); }
    hide Arranged, Ascending;
    IndexIs(r, key, m);
  }

  lemma EachArranged<K(!new), V>(leq: (K, K) -> bool, m: map<K, V>, n: map<K, V>, f: V -> V)
    requires n.Keys == m.Keys && forall k :: k in m ==> n[k] == f(m[k])
    ensures Each(f, Arranged(leq, m)) == Arranged(leq, n)
  {
    assert |m| == |m.Keys| && |n| == |n.Keys|;
    forall i | 0 <= i < |m| ensures Each(f, Arranged(leq, m))[i] == Arranged(leq, n)[i] {
      ArrangedAt(leq, m, i);
      ArrangedAt(leq, n, i);
    }
  }

  // ---- Writing ----

  function EncodeRecord(r: Record): (w: Result<RecordWire>) {
    match EncodedDefinition(r.definition)
    case Err(e) => Err(e)
    case Ok(d) => Ok(RecordWire(d, r.deleted))
  }

  function EncodeStage(s: StagedChange): (w: Result<StageWire>) {
    match EncodedDefinition(s.definition)
    case Err(e) => Err(e)
    case Ok(d) => Ok(StageWire(s.id, d, s.expected, s.applyAt, s.actor))
  }

  /** The document a state is written as, in key order and whatever its size; custom strategies cannot be written. */
  ghost function DocumentOf(st: TenantState): (w: Option<StateWire>) {
    var records := MapAll(EncodeRecord, Arranged(StringLeq, st.records));
    var groups := MapAll(EncodedGroup, Arranged(StringLeq, st.groups));
    var staged := MapAll(EncodeStage, Arranged(NatLeq, st.staged));
    if records.Err? || groups.Err? || staged.Err? then None
    else Some(StateWire(STATE_VERSION, records.value, groups.value, st.audit, staged.value, st.nextStage))
  }

  ghost function Marshalled(env: Env, size: Size, st: TenantState): (w: Option<StateWire>) {
    match DocumentOf(st)
    case None => None
    case Some(w) => if size(w) > env.limits.maxStateBytes then None else Some(w)
  }

  // ---- Reading ----

  function DecodeRecord(w: RecordWire): (r: Result<Record>) {
    match DecodedDefinition(w.definition)
    case Err(e) => Err(e)
    case Ok(d) => Ok(Record(d, w.deleted))
  }

  function DecodeStage(w: StageWire): (r: Result<StagedChange>) {
    match DecodedDefinition(w.definition)
    case Err(e) => Err(e)
    case Ok(d) => Ok(StagedChange(w.id, d, w.expected, w.applyAt, w.actor))
  }

  function RecordKey(r: Record): (key: string) { r.definition.key }

  function StageId(s: StagedChange): (id: nat) { s.id }

  ghost predicate RecordsLoad(env: Env, rs: seq<Record>) {
    DistinctKeys(rs, RecordKey) && forall r :: r in rs ==> ValidDefinition(env, r.definition)
  }

  ghost predicate GroupsLoad(env: Env, rs: seq<Record>, gs: seq<Group>) {
    DistinctKeys(gs, GroupKey) && GroupsAccepted(env, Live(Index(rs, RecordKey)), Index(gs, GroupKey))
  }

  ghost predicate StagesLoad(env: Env, ss: seq<StagedChange>, nextStage: nat) {
    && |ss| <= env.limits.maxStagedChanges && DistinctKeys(ss, StageId)
    && forall s :: s in ss ==> ValidDefinition(env, s.definition) && 1 <= s.id <= nextStage
  }

  ghost function Unmarshalled(env: Env, size: Size, w: StateWire): (st: Option<TenantState>) {
    var rs, gs, ss := MapAll(DecodeRecord, w.records), MapAll(DecodedGroup, w.groups), MapAll(DecodeStage, w.staged);
    if size(w) > env.limits.maxStateBytes || w.version != STATE_VERSION || rs.Err? || gs.Err? || ss.Err? then None
    else if RecordsLoad(env, rs.value) && GroupsLoad(env, rs.value, gs.value) && |w.audit| <= env.limits.maxAuditEntries
            && StagesLoad(env, ss.value, w.nextStage) then
      Some(TenantState(Index(rs.value, RecordKey), Index(gs.value, GroupKey), w.audit, Index(ss.value, StageId), w.nextStage))
    else None
  }

  // ---- Normal form of a state ----

  function NormalRecord(r: Record): (n: Record) { r.(definition := NormalDefinition(r.definition)) }

  function NormalStage(s: StagedChange): (n: StagedChange) { s.(definition := NormalDefinition(s.definition)) }

  function NormalRecords(records: map<string, Record>): (n: map<string, Record>) { map k | k in records :: NormalRecord(records[k]) }

  function NormalStages(staged: map<nat, StagedChange>): (n: map<nat, StagedChange>) { map id | id in staged :: NormalStage(staged[id]) }

  /** The same state with tags, dependencies and target sets arranged; every count, identity and version is kept. */
  function NormalState(st: TenantState): (n: TenantState) {
    st.(records := NormalRecords(st.records), groups := NormalGroups(st.groups), staged := NormalStages(st.staged))
  }

  lemma NormalLive(records: map<string, Record>)
    ensures Live(NormalRecords(records)) == NormalDefinitions(Live(records))
  {
  }

  // ---- There and back ----

  lemma RecordRoundTrip(r: Record)
    ensures EncodeRecord(r).Ok? <==> NoCustom(r.definition.strategies)
    ensures EncodeRecord(r).Ok? ==>
              DecodeRecord(EncodeRecord(r).value)
              == if CarriedDefinition(r.definition) then Ok(NormalRecord(r)) else Err(InvalidPayload)
  {
    DefinitionRoundTrip(r.definition);
    hide EncodedDefinition, DecodedDefinition, NormalDefinition, CarriedDefinition, NoCustom;
  }

  lemma StageRoundTrip(s: StagedChange)
    ensures EncodeStage(s).Ok? <==> NoCustom(s.definition.strategies)
    ensures EncodeStage(s).Ok? ==>
              DecodeStage(EncodeStage(s).value)
              == if CarriedDefinition(s.definition) then Ok(NormalStage(s)) else Err(InvalidPayload)
  {
    DefinitionRoundTrip(s.definition);
    hide EncodedDefinition, DecodedDefinition, NormalDefinition, CarriedDefinition, NoCustom;
  }

  /** A list of items that each round-trip, or fail to decode, does so as a whole. */
  lemma ListRoundTrip<A, B>(encode: A -> Result<B>, decode: B -> Result<A>, normal: A -> A, carried: A -> bool, xs: seq<A>)
    requires MapAll(encode, xs).Ok?
    requires forall x :: x in xs && encode(x).Ok? ==>
               decode(encode(x).value) == if carried(x) then Ok(normal(x)) else Err(InvalidPayload)
    ensures var ws := MapAll(encode, xs).value;
            MapAll(decode, ws) == if forall x :: x in xs ==> carried(x) then Ok(Each(normal, xs)) else Err(InvalidPayload)
  {
    var ws := MapAll(encode, xs).value;
    forall i | 0 <= i < |xs| ensures decode(ws[i]) == if carried(xs[i]) then Ok(normal(xs[i])) else Err(InvalidPayload) {
      var x := xs[i];
      assert x in xs && encode(x) == Ok(ws[i]);
    }
    if forall x :: x in xs ==> carried(x) {
      forall i | 0 <= i < |xs| ensures decode(ws[i]) == Ok(Each(normal, xs)[i]) { assert carried(xs[i]); }
      MapAllSucceeds(decode, ws, Each(normal, xs));
    } else {
      var x :| x in xs && !carried(x);
      var i :| 0 <= i < |xs| && xs[i] == x;
      assert decode(ws[i]).Err?;
    }
  }

  /** A map of such items round-trips through its arrangement, or fails to decode. */
  lemma MapRoundTrip<K(!new), A(!new), B>(
    leq: (K, K) -> bool, m: map<K, A>, n: map<K, A>, encode: A -> Result<B>, decode: B -> Result<A>, normal: A -> A, carried: A -> bool)
    requires MapAll(encode, Arranged(leq, m)).Ok? && n.Keys == m.Keys && forall k :: k in m ==> n[k] == normal(m[k])
    requires forall k :: k in m && encode(m[k]).Ok? ==>
               decode(encode(m[k]).value) == if carried(m[k]) then Ok(normal(m[k])) else Err(InvalidPayload)
    ensures MapAll(decode, MapAll(encode, Arranged(leq, m)).value)
            == if forall k :: k in m ==> carried(m[k]) then Ok(Arranged(leq, n)) else Err(InvalidPayload)
  {
    ArrangedAll(leq, m);
    var xs := Arranged(leq, m);
    hide Arranged;
    ListRoundTrip(encode, decode, normal, carried, xs);
    EachArranged(leq, m, n, normal);
    assert (forall x :: x in xs ==> carried(x)) <==> (forall k :: k in m ==> carried(m[k]));
  }

  lemma MapEncodes<K(!new), A(!new), B>(leq: (K, K) -> bool, m: map<K, A>, encode: A -> Result<B>, k: K)
    requires MapAll(encode, Arranged(leq, m)).Ok? && k in m
    ensures encode(m[k]).Ok?
  {
    ArrangedAll(leq, m);
    var xs := Arranged(leq, m);
    assert m[k] in xs;
    var i :| 0 <= i < |xs| && xs[i] == m[k];
  }

  function CarriedRecord(): (f: Record -> bool) { (r: Record) => CarriedDefinition(r.definition) }

  function CarriedStage(): (f: StagedChange -> bool) { (s: StagedChange) => CarriedDefinition(s.definition) }

  ghost predicate RecordsValid(env: Env, records: map<string, Record>) {
    forall k :: k in records ==> ValidDefinition(env, records[k].definition)
  }

  ghost predicate StagesValid(env: Env, staged: map<nat, StagedChange>) {
    forall id :: id in staged ==> ValidDefinition(env, staged[id].definition)
  }

  ghost predicate RecordsCarried(records: map<string, Record>) {
    forall k :: k in records ==> CarriedDefinition(records[k].definition)
  }

  ghost predicate StagesCarried(staged: map<nat, StagedChange>) {
    forall id :: id in staged ==> CarriedDefinition(staged[id].definition)
  }

  lemma RecordsBack(records: map<string, Record>)
    requires MapAll(EncodeRecord, Arranged(StringLeq, records)).Ok?
    ensures MapAll(DecodeRecord, MapAll(EncodeRecord, Arranged(StringLeq, records)).value)
            == if RecordsCarried(records) then Ok(Arranged(StringLeq, NormalRecords(records))) else Err(InvalidPayload)
  {
    hide EncodeRecord, DecodeRecord, NormalRecord, Arranged, CarriedDefinition;
    forall k | k in records && EncodeRecord(records[k]).Ok?
      ensures DecodeRecord(EncodeRecord(records[k]).value)
              == if CarriedRecord()(records[k]) then Ok(NormalRecord(records[k])) else Err(InvalidPayload)
    {
      RecordRoundTrip(records[k]);
    }
    MapRoundTrip(StringLeq, records, NormalRecords(records), EncodeRecord, DecodeRecord, NormalRecord, CarriedRecord());
  }

  lemma StagesBack(staged: map<nat, StagedChange>)
    requires MapAll(EncodeStage, Arranged(NatLeq, staged)).Ok?
    ensures MapAll(DecodeStage, MapAll(EncodeStage, Arranged(NatLeq, staged)).value)
            == if StagesCarried(staged) then Ok(Arranged(NatLeq, NormalStages(staged))) else Err(InvalidPayload)
  {
    hide EncodeStage, DecodeStage, NormalStage, Arranged, CarriedDefinition;
    forall id | id in staged && EncodeStage(staged[id]).Ok?
      ensures DecodeStage(EncodeStage(staged[id]).value)
              == if CarriedStage()(staged[id]) then Ok(NormalStage(staged[id])) else Err(InvalidPayload)
    {
      StageRoundTrip(staged[id]);
    }
    MapRoundTrip<nat, StagedChange, StageWire>(
      NatLeq, staged, NormalStages(staged), EncodeStage, DecodeStage, NormalStage, CarriedStage());
  }

  lemma GroupBack(env: Env, gs: Groups, k: string)
    requires MapAll(EncodedGroup, Arranged(StringLeq, gs)).Ok? && EachValid(env, gs) && k in gs
    ensures EncodedGroup(gs[k]).Ok? && DecodedGroup(EncodedGroup(gs[k]).value) == Ok(NormalGroup(gs[k]))
  {
    MapEncodes(StringLeq, gs, EncodedGroup, k);
    GroupRoundTrip(gs[k]);
    ValidGroupIsCarried(env, gs[k]);
  }

  lemma GroupsBack(env: Env, gs: Groups)
    requires MapAll(EncodedGroup, Arranged(StringLeq, gs)).Ok? && EachValid(env, gs)
    ensures MapAll(DecodedGroup, MapAll(EncodedGroup, Arranged(StringLeq, gs)).value) == Ok(Arranged(StringLeq, NormalGroups(gs)))
  {
    hide EncodedGroup, DecodedGroup, NormalGroup, Arranged, EachValid;
    forall k | k in gs && EncodedGroup(gs[k]).Ok?
      ensures DecodedGroup(EncodedGroup(gs[k]).value) == Ok(NormalGroup(gs[k]))
    {
      GroupBack(env, gs, k);
    }
    MapRoundTrip(StringLeq, gs, NormalGroups(gs), EncodedGroup, DecodedGroup, NormalGroup, (g: Group) => true);
  }

  lemma RecordsLoadExactly(env: Env, records: map<string, Record>)
    requires RecordsKeyed(records)
    ensures RecordsLoad(env, Arranged(StringLeq, NormalRecords(records))) <==> RecordsValid(env, records)
    ensures Index(Arranged(StringLeq, NormalRecords(records)), RecordKey) == NormalRecords(records)
  {
    hide ValidDefinition, Arranged, Index, RecordOk, NormalDefinition;
    var n := NormalRecords(records);
    forall k | k in n
      ensures RecordKey(n[k]) == k && (ValidDefinition(env, n[k].definition) <==> ValidDefinition(env, records[k].definition))
    {
      NormalRecordKept(env, records, k);
    }
    ArrangedIndexes(StringLeq, n, RecordKey);
    ArrangedAll(StringLeq, n);
  }

  lemma NormalRecordKept(env: Env, records: map<string, Record>, k: string)
    requires RecordsKeyed(records) && k in records
    ensures var n := NormalRecords(records)[k];
            RecordKey(n) == k && (ValidDefinition(env, n.definition) <==> ValidDefinition(env, records[k].definition))
  {
    assert RecordOk(records, k);
    NormalDefinitionValid(env, records[k].definition);
  }

  lemma NormalStageKept(env: Env, staged: map<nat, StagedChange>, records: map<string, Record>, next: nat, id: nat)
    requires StagesOk(records, next, staged) && id in staged
    ensures var n := NormalStages(staged)[id];
            && StageId(n) == id && 1 <= id <= next
            && (ValidDefinition(env, n.definition) <==> ValidDefinition(env, staged[id].definition))
  {
    assert StageOk(records, next, id, staged[id]);
    NormalDefinitionValid(env, staged[id].definition);
  }

  lemma StagesLoadExactly(env: Env, staged: map<nat, StagedChange>, records: map<string, Record>, next: nat)
    requires StagesOk(records, next, staged) && |staged| <= env.limits.maxStagedChanges
    ensures StagesLoad(env, Arranged(NatLeq, NormalStages(staged)), next) <==> StagesValid(env, staged)
    ensures Index(Arranged(NatLeq, NormalStages(staged)), StageId) == NormalStages(staged)
  {
    hide ValidDefinition, Arranged, StagesOk, NormalStage;
    var n := NormalStages(staged);
    forall id | id in n
      ensures StageId(n[id]) == id && 1 <= id <= next
              && (ValidDefinition(env, n[id].definition) <==> ValidDefinition(env, staged[id].definition))
    {
      NormalStageKept(env, staged, records, next, id);
    }
    assert n.Keys == staged.Keys && |n| == |n.Keys| && |staged| == |staged.Keys|;
    hide NormalStages, DistinctKeys;
    ArrangedIndexes<nat, StagedChange>(NatLeq, n, StageId);
    ArrangedAll<nat, StagedChange>(NatLeq, n);
  }

  lemma GroupsLoadExactly(env: Env, records: map<string, Record>, gs: Groups)
    requires RecordsKeyed(records) && GroupsWellFormed(env, gs)
    ensures GroupsLoad(env, Arranged(StringLeq, NormalRecords(records)), Arranged(StringLeq, NormalGroups(gs)))
            <==> AllAttached(env, Live(records), gs)
    ensures Index(Arranged(StringLeq, NormalGroups(gs)), GroupKey) == NormalGroups(gs)
  {
    assert forall k :: k in NormalGroups(gs) ==> GroupKey(NormalGroups(gs)[k]) == k;
    NormalGroupsValid(env, gs);
    NormalForest(gs, env.limits.maxGroupDepth);
    NormalAttached(env, Live(records), gs);
    NormalLive(records);
    RecordsLoadExactly(env, records);
    hide EachValid, ParentsExist, Forest, AllAttached, Arranged, RecordsLoad, NormalGroups, NormalRecords, NormalDefinitions;
    ArrangedIndexes(StringLeq, NormalGroups(gs), GroupKey);
  }

  /** Every definition validates, pending ones included, and every live attachment resolves to targetable variants. */
  ghost predicate Loadable(env: Env, st: TenantState) {
    RecordsValid(env, st.records) && StagesValid(env, st.staged) && AllAttached(env, Live(st.records), st.groups)
  }

  lemma WrittenHaveNoCustom(env: Env, size: Size, st: TenantState)
    requires Marshalled(env, size, st).Some?
    ensures forall k :: k in st.records ==> NoCustom(st.records[k].definition.strategies)
    ensures forall id :: id in st.staged ==> NoCustom(st.staged[id].definition.strategies)
  {
    hide EncodeRecord, EncodeStage, EncodedGroup, NoCustom, Arranged;
    forall k | k in st.records ensures NoCustom(st.records[k].definition.strategies) {
      MapEncodes(StringLeq, st.records, EncodeRecord, k);
      RecordRoundTrip(st.records[k]);
    }
    forall id | id in st.staged ensures NoCustom(st.staged[id].definition.strategies) {
      MapEncodes<nat, StagedChange, StageWire>(NatLeq, st.staged, EncodeStage, id);
      StageRoundTrip(st.staged[id]);
    }
  }

  lemma LoadableIsCarried(env: Env, size: Size, st: TenantState)
    requires Marshalled(env, size, st).Some? && RecordsValid(env, st.records) && StagesValid(env, st.staged)
    ensures RecordsCarried(st.records) && StagesCarried(st.staged)
  {
    WrittenHaveNoCustom(env, size, st);
    forall k | k in st.records ensures CarriedDefinition(st.records[k].definition) { ValidIsCarried(env, st.records[k].definition); }
    forall id | id in st.staged ensures CarriedDefinition(st.staged[id].definition) { ValidIsCarried(env, st.staged[id].definition); }
  }

  /**
   * A document written from a reachable state reads back exactly when the state is loadable, and then it reads
   * back as the same state up to the codec's arrangement: records, tombstones, groups, audit, stages, identities.
   */
  lemma DocumentReadsBackExactlyWhen(env: Env, size: Size, st: TenantState)
    requires Inv(env, st) && Marshalled(env, size, st).Some?
    ensures Unmarshalled(env, size, Marshalled(env, size, st).value) == if Loadable(env, st) then Some(NormalState(st)) else None
  {
    hide RecordsCarried, StagesCarried, RecordsValid, StagesValid, AllAttached, RecordsLoad, GroupsLoad, StagesLoad, Arranged,
         EncodeRecord, DecodeRecord, EncodeStage, DecodeStage, EncodedGroup, DecodedGroup, NormalRecords, NormalStages, NormalGroups,
         EachValid, StagesOk, OnePerKey, RecordsKeyed;
    RecordsBack(st.records);
    StagesBack(st.staged);
    GroupsBack(env, st.groups);
    RecordsLoadExactly(env, st.records);
    StagesLoadExactly(env, st.staged, st.records, st.nextStage);
    GroupsLoadExactly(env, st.records, st.groups);
    if Loadable(env, st) { LoadableIsCarried(env, size, st); }
  }

  // ---- The loops that write and read ----

  method SortedKeys<K(!new, ==)>(leq: (K, K) -> bool, s: set<K>) returns (keys: seq<K>)
    requires TotalOrder(leq)
    ensures keys == Ascending(leq, s)
  {
    keys := [];
    var todo := s;
    while todo != {}
      invariant todo <= s && multiset(keys) == multiset(s - todo)
      decreases |todo|
    {
      var k :| k in todo;
      assert s - (todo - {k}) == (s - todo) + {k};
      keys := keys + [k];
      todo := todo - {k};
    }
    assert s - {} == s;
    AscendingUnique(leq, Sort(leq, keys), s);
    keys := Sort(leq, keys);
  }

  method Arrange<K(!new, ==), V>(leq: (K, K) -> bool, m: map<K, V>) returns (r: seq<V>)
    requires TotalOrder(leq)
    ensures r == Arranged(leq, m)
  {
    hide TotalOrder, Ascending, Arranged;
    var keys := SortedKeys(leq, m.Keys);
    assert |m| == |m.Keys| && forall i :: 0 <= i < |keys| ==> keys[i] in m.Keys;
    r := [];
    for i := 0 to |keys|
      invariant |r| == i && forall j :: 0 <= j < i ==> r[j] == m[keys[j]]
    {
      r := r + [m[keys[i]]];
    }
    forall i | 0 <= i < |r| ensures r[i] == Arranged(leq, m)[i] { ArrangedAt(leq, m, i); }
  }

  method EncodeRecords(records: seq<Record>) returns (r: Result<seq<RecordWire>>)
    ensures r == MapAll(EncodeRecord, records)
  {
    var out: seq<RecordWire> := [];
    for i := 0 to |records|
      invariant Mapped(EncodeRecord, records, i, out)
    {
      var definition := EncodeDefinition(records[i].definition);
      MapOne(EncodeRecord, records, i, out, EncodeRecord(records[i]));
      if definition.Err? { return Err(definition.error); }
      out := out + [RecordWire(definition.value, records[i].deleted)];
    }
    MapEnd(EncodeRecord, records, out);
    return Ok(out);
  }

  method EncodeStages(changes: seq<StagedChange>) returns (r: Result<seq<StageWire>>)
    ensures r == MapAll(EncodeStage, changes)
  {
    var out: seq<StageWire> := [];
    for i := 0 to |changes|
      invariant Mapped(EncodeStage, changes, i, out)
    {
      var c := changes[i];
      var definition := EncodeDefinition(c.definition);
      MapOne(EncodeStage, changes, i, out, EncodeStage(c));
      if definition.Err? { return Err(definition.error); }
      out := out + [StageWire(c.id, definition.value, c.expected, c.applyAt, c.actor)];
    }
    MapEnd(EncodeStage, changes, out);
    return Ok(out);
  }

  method MarshalTenantState(env: Env, size: Size, st: TenantState) returns (w: Option<StateWire>)
    ensures w == Marshalled(env, size, st)
  {
    hide Arranged, EncodeRecord, EncodeStage, EncodedGroup, TotalOrder;
    StringOrderIsTotal();
    NatOrderIsTotal();
    var recordList := Arrange(StringLeq, st.records);
    var records := EncodeRecords(recordList);
    if records.Err? { return None; }
    var groupList := Arrange(StringLeq, st.groups);
    var groups := EncodeGroups(groupList);
    if groups.Err? { return None; }
    var stageList := Arrange<nat, StagedChange>(NatLeq, st.staged);
    var staged := EncodeStages(stageList);
    if staged.Err? { return None; }
    var state := StateWire(STATE_VERSION, records.value, groups.value, st.audit, staged.value, st.nextStage);
    if size(state) > env.limits.maxStateBytes { return None; }
    return Some(state);
  }

  ghost function LoadedRecords(env: Env, wires: seq<RecordWire>): (r: Option<seq<Record>>) {
    var rs := MapAll(DecodeRecord, wires);
    if rs.Ok? && RecordsLoad(env, rs.value) then Some(rs.value) else None
  }

  /** The records read so far decode, validate and repeat no key. */
  ghost predicate Loading(env: Env, wires: seq<RecordWire>, n: nat, rs: seq<Record>) {
    Mapped(DecodeRecord, wires, n, rs) && RecordsLoad(env, rs)
  }

  lemma MappedPrefix<A, B>(f: A -> Result<B>, ws: seq<A>, n: nat, xs: seq<B>, x: B)
    requires Mapped(f, ws, n, xs) && n < |ws| && f(ws[n]) == Ok(x) && MapAll(f, ws).Ok?
    ensures MapAll(f, ws).value[n] == x && x in MapAll(f, ws).value && forall i :: 0 <= i < n ==> MapAll(f, ws).value[i] == xs[i]
  {
    var all := MapAll(f, ws).value;
    assert all[n] == x;
  }

  lemma RepeatedKey<A, B, K>(f: A -> Result<B>, ws: seq<A>, n: nat, xs: seq<B>, x: B, key: B -> K)
    requires Mapped(f, ws, n, xs) && n < |ws| && f(ws[n]) == Ok(x) && MapAll(f, ws).Ok? && key(x) in Index(xs, key)
    ensures !DistinctKeys(MapAll(f, ws).value, key)
  {
    MappedPrefix(f, ws, n, xs, x);
    var all := MapAll(f, ws).value;
    var i :| 0 <= i < |xs| && xs[i] == Index(xs, key)[key(x)];
    assert key(all[i]) == key(all[n]);
  }

  lemma LoadOne(env: Env, wires: seq<RecordWire>, n: nat, rs: seq<Record>, r: Record)
    requires Loading(env, wires, n, rs) && n < |wires| && DecodeRecord(wires[n]) == Ok(r)
    ensures ValidDefinition(env, r.definition) && r.definition.key !in Index(rs, RecordKey) ==> Loading(env, wires, n + 1, rs + [r])
    ensures !ValidDefinition(env, r.definition) || r.definition.key in Index(rs, RecordKey) ==> LoadedRecords(env, wires) == None
  {
    hide DecodeRecord, ValidDefinition, DistinctKeys;
    MapOne(DecodeRecord, wires, n, rs, DecodeRecord(wires[n]));
    if r.definition.key !in Index(rs, RecordKey) { ListOne(rs, r, RecordKey); }
    if MapAll(DecodeRecord, wires).Ok? {
      MappedPrefix(DecodeRecord, wires, n, rs, r);
      if r.definition.key in Index(rs, RecordKey) { RepeatedKey(DecodeRecord, wires, n, rs, r, RecordKey); }
    }
    hide Mapped;
  }

  lemma LoadStart(env: Env, wires: seq<RecordWire>)
    ensures Loading(env, wires, 0, []) && Index([], RecordKey) == map[]
  {
  }

  lemma LoadEnd(env: Env, wires: seq<RecordWire>, rs: seq<Record>)
    requires Loading(env, wires, |wires|, rs)
    ensures LoadedRecords(env, wires) == Some(rs)
  {
    hide DecodeRecord, RecordsLoad;
    MapEnd(DecodeRecord, wires, rs);
  }

  lemma LoadStops(env: Env, wires: seq<RecordWire>, n: nat, rs: seq<Record>)
    requires Loading(env, wires, n, rs) && n < |wires| && DecodedDefinition(wires[n].definition).Err?
    ensures LoadedRecords(env, wires) == None
  {
    MapOne(DecodeRecord, wires, n, rs, DecodeRecord(wires[n]));
    hide RecordsLoad, DecodedDefinition;
  }

  method LoadRecords(env: Env, wires: seq<RecordWire>) returns (r: Option<map<string, Record>>)
    ensures r == match LoadedRecords(env, wires) case Some(rs) => Some(Index(rs, RecordKey)) case None => None
  {
    hide Loading, LoadedRecords, ValidDefinition, DecodedDefinition;
    var out: map<string, Record> := map[];
    ghost var rs: seq<Record> := [];
    LoadStart(env, wires);
    for i := 0 to |wires|
      invariant Loading(env, wires, i, rs) && out == Index(rs, RecordKey)
    {
      var d := DecodeDefinition(wires[i].definition);
      if d.Err? {
        LoadStops(env, wires, i, rs);
        return None;
      }
      var record := Record(d.value, wires[i].deleted);
      LoadOne(env, wires, i, rs, record);
      if !ValidDefinition(env, d.value) { return None; }
      if d.value.key in out { return None; }
      IndexSnoc(rs, record, RecordKey);
      out := out[d.value.key := record];
      rs := rs + [record];
    }
    LoadEnd(env, wires, rs);
    return Some(out);
  }

  ghost function LoadedStages(env: Env, wires: seq<StageWire>, next: nat): (r: Option<seq<StagedChange>>) {
    var ss := MapAll(DecodeStage, wires);
    if ss.Ok? && StagesLoad(env, ss.value, next) then Some(ss.value) else None
  }

  ghost predicate LoadingStages(env: Env, wires: seq<StageWire>, next: nat, n: nat, ss: seq<StagedChange>) {
    && Mapped(DecodeStage, wires, n, ss) && DistinctKeys(ss, StageId)
    && forall s :: s in ss ==> ValidDefinition(env, s.definition) && 1 <= s.id <= next
  }

  lemma LoadOneStage(env: Env, wires: seq<StageWire>, next: nat, n: nat, ss: seq<StagedChange>, s: StagedChange)
    requires LoadingStages(env, wires, next, n, ss) && n < |wires| && DecodeStage(wires[n]) == Ok(s)
    ensures ValidDefinition(env, s.definition) && 1 <= s.id <= next && s.id !in Index(ss, StageId) ==>
              LoadingStages(env, wires, next, n + 1, ss + [s])
    ensures !ValidDefinition(env, s.definition) || !(1 <= s.id <= next) || s.id in Index(ss, StageId) ==>
              LoadedStages(env, wires, next) == None
  {
    hide DecodeStage, ValidDefinition, DistinctKeys;
    MapOne(DecodeStage, wires, n, ss, DecodeStage(wires[n]));
    if s.id !in Index(ss, StageId) { ListOne(ss, s, StageId); }
    if MapAll(DecodeStage, wires).Ok? {
      MappedPrefix(DecodeStage, wires, n, ss, s);
      if s.id in Index(ss, StageId) { RepeatedKey(DecodeStage, wires, n, ss, s, StageId); }
    }
    hide Mapped;
  }

  lemma LoadStagesStart(env: Env, wires: seq<StageWire>, next: nat)
    ensures LoadingStages(env, wires, next, 0, []) && Index([], StageId) == map[]
  {
  }

  lemma LoadStagesEnd(env: Env, wires: seq<StageWire>, next: nat, ss: seq<StagedChange>)
    requires LoadingStages(env, wires, next, |wires|, ss) && |wires| <= env.limits.maxStagedChanges
    ensures LoadedStages(env, wires, next) == Some(ss)
  {
    hide DecodeStage, ValidDefinition;
    MapEnd(DecodeStage, wires, ss);
  }

  lemma LoadStagesStop(env: Env, wires: seq<StageWire>, next: nat, n: nat, ss: seq<StagedChange>)
    requires LoadingStages(env, wires, next, n, ss) && n < |wires| && DecodedDefinition(wires[n].definition).Err?
    ensures LoadedStages(env, wires, next) == None
  {
    MapOne(DecodeStage, wires, n, ss, DecodeStage(wires[n]));
    hide StagesLoad, DecodedDefinition;
  }

  lemma TooManyStagesStop(env: Env, wires: seq<StageWire>, next: nat)
    requires |wires| > env.limits.maxStagedChanges
    ensures LoadedStages(env, wires, next) == None
  {
    hide DecodeStage;
  }

  method LoadStages(env: Env, wires: seq<StageWire>, next: nat) returns (r: Option<map<nat, StagedChange>>)
    ensures r == match LoadedStages(env, wires, next) case Some(ss) => Some(Index(ss, StageId)) case None => None
  {
    hide LoadingStages, LoadedStages, ValidDefinition, DecodedDefinition;
    if |wires| > env.limits.maxStagedChanges {
      TooManyStagesStop(env, wires, next);
      return None;
    }
    var out: map<nat, StagedChange> := map[];
    ghost var ss: seq<StagedChange> := [];
    LoadStagesStart(env, wires, next);
    for i := 0 to |wires|
      invariant LoadingStages(env, wires, next, i, ss) && out == Index(ss, StageId)
    {
      var d := DecodeDefinition(wires[i].definition);
      if d.Err? {
        LoadStagesStop(env, wires, next, i, ss);
        return None;
      }
      var change := StagedChange(wires[i].id, d.value, wires[i].expected, wires[i].applyAt, wires[i].actor);
      LoadOneStage(env, wires, next, i, ss, change);
      if !ValidDefinition(env, d.value) { return None; }
      if change.id == 0 || change.id > next { return None; }
      if change.id in out { return None; }
      IndexSnoc(ss, change, StageId);
      out := out[change.id := change];
      ss := ss + [change];
    }
    LoadStagesEnd(env, wires, next, ss);
    return Some(out);
  }

  method UnmarshalTenantState(env: Env, size: Size, w: StateWire) returns (st: Option<TenantState>)
    ensures st == Unmarshalled(env, size, w)
  {
    hide RecordsLoad, StagesLoad, GroupsAccepted, DecodeRecord, DecodeStage, DecodedGroup, DistinctKeys;
    if size(w) > env.limits.maxStateBytes { return None; }
    if w.version != STATE_VERSION { return None; }
    var records := LoadRecords(env, w.records);
    if records == None { return None; }
    var groups := DecodeGroups(w.groups);
    if groups.Err? { return None; }
    var definitions := ActiveDefinitions(records.value);
    var cloned := ValidateGroups(env, definitions, groups.value);
    if cloned == None { return None; }
    if |w.audit| > env.limits.maxAuditEntries { return None; }
    var staged := LoadStages(env, w.staged, w.nextStage);
    if staged == None { return None; }
    return Some(TenantState(records.value, cloned.value, w.audit, staged.value, w.nextStage));
  }

  // ---- What reading back keeps ----

  lemma NormalRecordsKeyed(records: map<string, Record>)
    requires RecordsKeyed(records)
    ensures RecordsKeyed(NormalRecords(records))
  {
    forall k | k in records ensures RecordOk(NormalRecords(records), k) { assert RecordOk(records, k); }
  }

  lemma NormalStagesOk(records: map<string, Record>, next: nat, staged: map<nat, StagedChange>)
    requires StagesOk(records, next, staged) && OnePerKey(staged)
    ensures StagesOk(NormalRecords(records), next, NormalStages(staged)) && OnePerKey(NormalStages(staged))
    ensures |NormalStages(staged)| == |staged|
  {
    forall id | id in staged ensures StageOk(NormalRecords(records), next, id, NormalStages(staged)[id]) {
      assert StageOk(records, next, id, staged[id]);
    }
    assert NormalStages(staged).Keys == staged.Keys;
    assert |NormalStages(staged)| == |NormalStages(staged).Keys| && |staged| == |staged.Keys|;
  }

  /** Reading a written document back gives a state that keeps the provider's invariant. */
  lemma NormalStateKeepsInv(env: Env, st: TenantState)
    requires Inv(env, st)
    ensures Inv(env, NormalState(st))
  {
    hide RecordsKeyed, StagesOk, OnePerKey, EachValid, ParentsExist, Forest, NormalRecords, NormalStages, NormalGroups;
    NormalRecordsKeyed(st.records);
    NormalStagesOk(st.records, st.nextStage, st.staged);
    NormalGroupsValid(env, st.groups);
    NormalForest(st.groups, env.limits.maxGroupDepth);
  }
}
