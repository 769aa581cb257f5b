/** The atomic register each tenant has, and the two stores that provide it. */
module Backends {

  /** Revision zero means absent. */
  datatype Register<D> = Absent | Present(revision: nat, document: D)

  function RevisionOf<D>(r: Register<D>): (n: nat) { if r.Absent? then 0 else r.revision }

  /** A register is written at the revision after the expected one, or not at all. */
  function Written<D>(r: Register<D>, expected: nat, document: D): (after: Register<D>) {
    if RevisionOf(r) == expected then Present(expected + 1, document) else r
  }

  datatype SwapReply = Committed | StorageConflict | SwapCancelled

  datatype LoadReply<D> = Loaded(register: Register<D>) | LoadCancelled

  datatype Row<D> = Row(revision: nat, document: D)

  class PostgresBackend<D> {
    var rows: map<string, Row<D>>

    constructor ()
      ensures Valid() && forall t :: RegisterOf(t) == Absent
    {
      rows := map[];
    }

    /** The table's check constraint. */
    ghost predicate Valid()
      reads this
    {
      forall t :: t in rows ==> rows[t].revision > 0
    }

    function RegisterOf(tenant: string): (r: Register<D>)
      reads this
    {
      if tenant in rows then Present(rows[tenant].revision, rows[tenant].document) else Absent
    }

    method Load(cancelled: bool, tenant: string) returns (r: LoadReply<D>)
      ensures r == if cancelled then LoadCancelled else Loaded(RegisterOf(tenant))
    {
      if cancelled { return LoadCancelled; }
      if tenant !in rows { return Loaded(Absent); }
      return Loaded(Present(rows[tenant].revision, rows[tenant].document));
    }

    /** Inserts at most one row when zero is expected, updates at most one row otherwise, and counts the rows affected. */
    method CompareAndSwap(cancelled: bool, tenant: string, expected: nat, document: D) returns (r: SwapReply)
      requires Valid()
      modifies this
      ensures Valid() && forall t :: t != tenant ==> RegisterOf(t) == old(RegisterOf(t))
      ensures cancelled ==> r == SwapCancelled && RegisterOf(tenant) == old(RegisterOf(tenant))
      ensures !cancelled ==>
                && (r == Committed <==> RevisionOf(old(RegisterOf(tenant))) == expected) && (r == Committed || r == StorageConflict)
                && RegisterOf(tenant) == Written(old(RegisterOf(tenant)), expected, document)
    {
      if cancelled { return SwapCancelled; }
      var affected := 0;
      if expected == 0 {
        if tenant !in rows {
          rows := rows[tenant := Row(1, document)];
          affected := 1;
        }
      } else if tenant in rows && rows[tenant].revision == expected {
        rows := rows[tenant := Row(rows[tenant].revision + 1, document)];
        affected := 1;
      }
      r := if affected != 1 then StorageConflict else Committed;
    }
  }

  class ValkeyBackend<D> {
    const key: string -> string
    var hashes: map<string, Row<D>>

    constructor (key: string -> string)
      requires forall s, t :: key(s) == key(t) ==> s == t
      ensures Valid() && this.key == key && forall t :: RegisterOf(t) == Absent
    {
      this.key := key;
      hashes := map[];
    }

    /** Tenants have different keys, and only the scripts write revisions. */
    ghost predicate Valid()
      reads this
    {
      (forall s, t :: key(s) == key(t) ==> s == t) && forall k :: k in hashes ==> hashes[k].revision > 0
    }

    function RegisterOf(tenant: string): (r: Register<D>)
      reads this
    {
      if key(tenant) in hashes then Present(hashes[key(tenant)].revision, hashes[key(tenant)].document) else Absent
    }

    method Load(cancelled: bool, tenant: string) returns (r: LoadReply<D>)
      ensures r == if cancelled then LoadCancelled else Loaded(RegisterOf(tenant))
    {
      if cancelled { return LoadCancelled; }
      var k := key(tenant);
      if k !in hashes { return Loaded(Absent); }
      return Loaded(Present(hashes[k].revision, hashes[k].document));
    }

    /** The script: a missing hash accepts only zero, an existing one only its own revision. */
    method CompareAndSwap(cancelled: bool, tenant: string, expected: nat, document: D) returns (r: SwapReply)
      requires Valid()
      modifies this
      ensures Valid() && forall t :: t != tenant ==> RegisterOf(t) == old(RegisterOf(t))
      ensures cancelled ==> r == SwapCancelled && RegisterOf(tenant) == old(RegisterOf(tenant))
      ensures !cancelled ==>
                && (r == Committed <==> RevisionOf(old(RegisterOf(tenant))) == expected) && (r == Committed || r == StorageConflict)
                && RegisterOf(tenant) == Written(old(RegisterOf(tenant)), expected, document)
    {
      if cancelled { return SwapCancelled; }
      var k := key(tenant);
      if k !in hashes {
        if expected != 0 { return StorageConflict; }
        hashes := hashes[k := Row(1, document)];
        return Committed;
      }
      if hashes[k].revision != expected { return StorageConflict; }
      hashes := hashes[k := Row(expected + 1, document)];
      return Committed;
    }
  }

  /** The store a durable provider was given. */
  datatype Store<D> = Postgres(postgres: PostgresBackend<D>) | Valkey(valkey: ValkeyBackend<D>) {
    function Handle(): (o: object) {
      match this
      case Postgres(p) => p
      case Valkey(v) => v
    }

    ghost predicate Valid()
      reads Handle()
    {
      match this
      case Postgres(p) => p.Valid()
      case Valkey(v) => v.Valid()
    }

    function RegisterOf(tenant: string): (r: Register<D>)
      reads Handle()
    {
      match this
      case Postgres(p) => p.RegisterOf(tenant)
      case Valkey(v) => v.RegisterOf(tenant)
    }

    method Load(cancelled: bool, tenant: string) returns (r: LoadReply<D>)
      ensures r == if cancelled then LoadCancelled else Loaded(RegisterOf(tenant))
    {
      match this
      case Postgres(p) => r := p.Load(cancelled, tenant);
      case Valkey(v) => r := v.Load(cancelled, tenant);
    }

    method CompareAndSwap(cancelled: bool, tenant: string, expected: nat, document: D) returns (r: SwapReply)
      requires Valid()
      modifies Handle()
      ensures Valid() && forall t :: t != tenant ==> RegisterOf(t) == old(RegisterOf(t))
      ensures cancelled ==> r == SwapCancelled && RegisterOf(tenant) == old(RegisterOf(tenant))
      ensures !cancelled ==>
                && (r == Committed <==> RevisionOf(old(RegisterOf(tenant))) == expected) && (r == Committed || r == StorageConflict)
                && RegisterOf(tenant) == Written(old(RegisterOf(tenant)), expected, document)
    {
      match this
      case Postgres(p) => r := p.CompareAndSwap(cancelled, tenant, expected, document);
      case Valkey(v) => r := v.CompareAndSwap(cancelled, tenant, expected, document);
    }
  }
}
