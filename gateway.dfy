/**
 * The tenant-aware data gateway (`TenantAwarePrisma`): every read, update and delete filter is
 * the caller's filter with its `tenantId` condition overwritten by the gateway's tenant, and
 * every create payload has its `tenantId` overwritten. Updates and deletes are bulk operations
 * (`updateMany` / `deleteMany`), so naming another tenant's row affects nothing.
 */
module Gateway {

  import opened Wrappers
  import opened Json
  import opened Lists
  import opened Store

  /** `{ ...where, tenantId }`. */
  function Scope(where: Where, tenantId: string): Where {
    where[TenantKey := Is(JStr(tenantId))]
  }

  /** Whether a row belongs to the given tenant. */
  predicate OwnedBy(row: Row, tenantId: string) {
    TenantKey in row && row[TenantKey] == JStr(tenantId)
  }

  /** A scoped filter matches exactly the rows of the tenant that match the caller's other conditions. */
  lemma {:induction false} ScopeMatches(ts: Tables, row: Row, where: Where, tenantId: string)
    ensures Matches(ts, row, Scope(where, tenantId)) <==> OwnedBy(row, tenantId) && Matches(ts, row, where - {TenantKey})
  {
    var s := Scope(where, tenantId);
    if Matches(ts, row, s) {
      assert Holds(ts, row, TenantKey, s[TenantKey]);
      forall column | column in where - {TenantKey} ensures Holds(ts, row, column, (where - {TenantKey})[column]) {
        assert column in s && s[column] == where[column];
      }
    }
    if OwnedBy(row, tenantId) && Matches(ts, row, where - {TenantKey}) {
      forall column | column in s ensures Holds(ts, row, column, s[column]) {
        if column != TenantKey {
          assert column in where - {TenantKey};
        }
      }
    }
  }

  /** `findMany`: the rows of the tenant that match the caller's filter, in table order. */
  function ScopedFindMany(ts: Tables, t: Table, where: Where, tenantId: string): (r: seq<Row>)
    ensures forall k :: 0 <= k < |r| ==> r[k] in Rows(ts, t) && OwnedBy(r[k], tenantId) && Matches(ts, r[k], where - {TenantKey})
    ensures forall k :: 0 <= k < |Rows(ts, t)| && OwnedBy(Rows(ts, t)[k], tenantId) && Matches(ts, Rows(ts, t)[k], where - {TenantKey}) ==> Rows(ts, t)[k] in r
  {
    var r := Select(ts, t, Scope(where, tenantId));
    forall row: Row { ScopeMatches(ts, row, where, tenantId); }
    r
  }

  /** `findUnique`, implemented with `findFirst` under the scoped filter: never a bare key lookup. */
  function ScopedFindUnique(ts: Tables, t: Table, where: Where, tenantId: string): (r: Option<Row>)
    ensures r.Some? ==> r.value in Rows(ts, t) && OwnedBy(r.value, tenantId) && Matches(ts, r.value, where - {TenantKey})
    ensures r.None? ==> forall k :: 0 <= k < |Rows(ts, t)| ==> !(OwnedBy(Rows(ts, t)[k], tenantId) && Matches(ts, Rows(ts, t)[k], where - {TenantKey}))
  {
    var rows := ScopedFindMany(ts, t, where, tenantId);
    if rows == [] then None else Some(rows[0])
  }

  /**
   * The row `create` writes: the caller's data with `tenantId` overwritten; the store supplies
   * `newId` when the data carries no id.
   */
  function NewRow(data: Row, tenantId: string, newId: string): (row: Row)
    ensures OwnedBy(row, tenantId)
    ensures IdKey in row
    ensures forall k :: k in data && k != TenantKey ==> k in row && row[k] == data[k]
  {
    var withId := if IdKey in data then data else data[IdKey := JStr(newId)];
    withId[TenantKey := JStr(tenantId)]
  }

  /** `updateMany`: merges `data` into every row matching the (already scoped) filter. */
  function UpdateRows(ts: Tables, rows: seq<Row>, where: Where, data: Row): (r: seq<Row>)
    ensures |r| == |rows|
    ensures forall k :: 0 <= k < |rows| ==> r[k] == if Matches(ts, rows[k], where) then rows[k] + data else rows[k]
  {
    seq(|rows|, k requires 0 <= k < |rows| => if Matches(ts, rows[k], where) then rows[k] + data else rows[k])
  }

  function CountMatching(ts: Tables, rows: seq<Row>, where: Where): nat {
    |Filter(rows, row => Matches(ts, row, where))|
  }

  /** Whether a bulk operation of the gateway bound to `tenantId`, called with `where`, acts on `row`. */
  predicate Targeted(ts: Tables, row: Row, where: Where, tenantId: string) {
    OwnedBy(row, tenantId) && Matches(ts, row, where - {TenantKey})
  }

  /** The rows of `rows` a scoped bulk operation acts on, in order. */
  function TargetedRows(ts: Tables, rows: seq<Row>, where: Where, tenantId: string): seq<Row> {
    Filter(rows, row => Targeted(ts, row, where, tenantId))
  }

  /** The rows of `rows` a scoped bulk operation leaves alone, in order. */
  function UntargetedRows(ts: Tables, rows: seq<Row>, where: Where, tenantId: string): seq<Row> {
    Filter(rows, row => !Targeted(ts, row, where, tenantId))
  }

  /** The scoped filter matches exactly the targeted rows, so filtering by either gives the same rows. */
  lemma {:induction false} ScopedFilters(ts: Tables, rows: seq<Row>, where: Where, tenantId: string)
    ensures Filter(rows, row => Matches(ts, row, Scope(where, tenantId))) == TargetedRows(ts, rows, where, tenantId)
    ensures Filter(rows, row => !Matches(ts, row, Scope(where, tenantId))) == UntargetedRows(ts, rows, where, tenantId)
  {
    if rows != [] {
      ScopeMatches(ts, rows[0], where, tenantId);
      ScopedFilters(ts, rows[1..], where, tenantId);
    }
  }

  /**
   * The gateway's update on table `t`: the new table and the number of rows affected.
   * Exactly the tenant's rows matching the caller's filter are merged with `data`; every
   * other row, of this tenant or another, stays as it was.
   */
  function ScopedUpdate(ts: Tables, t: Table, where: Where, data: Row, tenantId: string): (r: (Tables, nat))
    ensures forall u :: u != t ==> Rows(r.0, u) == Rows(ts, u)
    ensures |Rows(r.0, t)| == |Rows(ts, t)|
    ensures forall k :: 0 <= k < |Rows(ts, t)| && !Targeted(ts, Rows(ts, t)[k], where, tenantId) ==> Rows(r.0, t)[k] == Rows(ts, t)[k]
    ensures forall k :: 0 <= k < |Rows(ts, t)| && Targeted(ts, Rows(ts, t)[k], where, tenantId) ==>
      Rows(r.0, t)[k] == Rows(ts, t)[k] + data
    ensures r.1 == |TargetedRows(ts, Rows(ts, t), where, tenantId)|
  {
    var scoped := Scope(where, tenantId);
    forall row: Row { ScopeMatches(ts, row, where, tenantId); }
    ScopedFilters(ts, Rows(ts, t), where, tenantId);
    (WithRows(ts, t, UpdateRows(ts, Rows(ts, t), scoped, data)), CountMatching(ts, Rows(ts, t), scoped))
  }

  /**
   * The gateway's delete on table `t`: the new table and the number of rows removed.
   * Exactly the tenant's rows matching the caller's filter go; the rest stay, in order.
   */
  function ScopedDelete(ts: Tables, t: Table, where: Where, tenantId: string): (r: (Tables, nat))
    ensures forall u :: u != t ==> Rows(r.0, u) == Rows(ts, u)
    ensures Rows(r.0, t) == UntargetedRows(ts, Rows(ts, t), where, tenantId)
    ensures r.1 == |TargetedRows(ts, Rows(ts, t), where, tenantId)|
    ensures forall k :: 0 <= k < |Rows(ts, t)| && !Targeted(ts, Rows(ts, t)[k], where, tenantId) ==> Rows(ts, t)[k] in Rows(r.0, t)
    ensures forall k :: 0 <= k < |Rows(r.0, t)| ==> Rows(r.0, t)[k] in Rows(ts, t) && !Targeted(ts, Rows(r.0, t)[k], where, tenantId)
    ensures r.1 + |Rows(r.0, t)| == |Rows(ts, t)|
  {
    var scoped := Scope(where, tenantId);
    var kept := Filter(Rows(ts, t), row => !Matches(ts, row, scoped));
    ScopedFilters(ts, Rows(ts, t), where, tenantId);
    FilterSplit(Rows(ts, t), row => Targeted(ts, row, where, tenantId), row => !Targeted(ts, row, where, tenantId));
    (WithRows(ts, t, kept), CountMatching(ts, Rows(ts, t), scoped))
  }

  /** A filter splits a sequence: what it keeps and what its complement keeps add up to the whole. */
  lemma {:induction false} FilterSplit<T>(s: seq<T>, p: T -> bool, q: T -> bool)
    requires forall x :: q(x) == !p(x)
    ensures |Filter(s, p)| + |Filter(s, q)| == |s|
  {
    if s != [] {
      FilterSplit(s[1..], p, q);
    }
  }

  /**
   * Isolation: a gateway bound to tenant `a` never returns a row of another tenant, and its
   * updates and deletes leave every row of another tenant where and as it was.
   */
  lemma Isolation(ts: Tables, t: Table, where: Where, data: Row, a: string, row: Row)
    requires row in Rows(ts, t) && !OwnedBy(row, a)
    ensures row !in ScopedFindMany(ts, t, where, a)
    ensures ScopedFindUnique(ts, t, where, a) != Some(row)
    ensures row in Rows(ScopedDelete(ts, t, where, a).0, t)
    ensures forall k :: 0 <= k < |Rows(ts, t)| && Rows(ts, t)[k] == row ==> Rows(ScopedUpdate(ts, t, where, data, a).0, t)[k] == row
  {
  }

  /** Targeting a row of another tenant by its id affects zero rows. */
  lemma {:induction false} CrossTenantByIdAffectsNothing(ts: Tables, t: Table, id: Json, data: Row, a: string)
    requires forall k :: 0 <= k < |Rows(ts, t)| && IdKey in Rows(ts, t)[k] && Rows(ts, t)[k][IdKey] == id ==> !OwnedBy(Rows(ts, t)[k], a)
    ensures ScopedUpdate(ts, t, map[IdKey := Is(id)], data, a).1 == 0
    ensures ScopedDelete(ts, t, map[IdKey := Is(id)], a).1 == 0
    ensures ScopedUpdate(ts, t, map[IdKey := Is(id)], data, a).0 == ts
  {
    var scoped := Scope(map[IdKey := Is(id)], a);
    var rows := Rows(ts, t);
    forall k | 0 <= k < |rows| ensures !Matches(ts, rows[k], scoped) {
      ScopeMatches(ts, rows[k], map[IdKey := Is(id)], a);
      var w := map[IdKey := Is(id)] - {TenantKey};
      assert IdKey in w && w[IdKey] == Is(id);
      assert Matches(ts, rows[k], w) ==> Holds(ts, rows[k], IdKey, w[IdKey]);
    }
    NoneMatch(ts, rows, scoped);
    assert UpdateRows(ts, rows, scoped, data) == rows;
    assert WithRows(ts, t, rows) == ts by { match t case _ => }
  }

  /** Looking up a row of another tenant by its id finds nothing. */
  lemma ForeignIdNotFound(ts: Tables, t: Table, id: Json, a: string)
    requires forall k :: 0 <= k < |Rows(ts, t)| && IdKey in Rows(ts, t)[k] && Rows(ts, t)[k][IdKey] == id ==> !OwnedBy(Rows(ts, t)[k], a)
    ensures ScopedFindUnique(ts, t, map[IdKey := Is(id)], a).None?
  {
    var w := map[IdKey := Is(id)] - {TenantKey};
    assert IdKey in w && w[IdKey] == Is(id);
    forall row | row in Rows(ts, t) ensures !(OwnedBy(row, a) && Matches(ts, row, w)) {
      if Matches(ts, row, w) {
        assert Holds(ts, row, IdKey, w[IdKey]);
      }
    }
  }

  lemma {:induction false} NoneMatch(ts: Tables, rows: seq<Row>, where: Where)
    requires forall k :: 0 <= k < |rows| ==> !Matches(ts, rows[k], where)
    ensures CountMatching(ts, rows, where) == 0
  {
    if rows != [] {
      assert forall k :: 1 <= k < |rows| ==> rows[1..][k - 1] == rows[k];
      NoneMatch(ts, rows[1..], where);
      assert !Matches(ts, rows[0], where);
    }
  }

  /** The gateway bound to one tenant, over the shared store. */
  class TenantAwarePrisma {
    const tenantId: string
    const db: Database

    constructor (tenantId: string, db: Database)
      ensures this.tenantId == tenantId && this.db == db
    {
      this.tenantId := tenantId;
      this.db := db;
    }

    method FindMany(t: Table, where: Where) returns (rows: seq<Row>)
      ensures rows == ScopedFindMany(db.Entities(), t, where, tenantId)
      ensures forall k :: 0 <= k < |rows| ==> OwnedBy(rows[k], tenantId)
    {
      rows := ScopedFindMany(db.Entities(), t, where, tenantId);
    }

    method FindUnique(t: Table, where: Where) returns (row: Option<Row>)
      ensures row == ScopedFindUnique(db.Entities(), t, where, tenantId)
      ensures row.Some? ==> OwnedBy(row.value, tenantId)
    {
      row := ScopedFindUnique(db.Entities(), t, where, tenantId);
    }

    method Create(t: Table, data: Row, newId: string) returns (row: Row)
      modifies db
      ensures row == NewRow(data, tenantId, newId) && OwnedBy(row, tenantId)
      ensures db.Entities() == WithRows(old(db.Entities()), t, Rows(old(db.Entities()), t) + [row])
      ensures db.users == old(db.users) && db.tenants == old(db.tenants) && db.members == old(db.members) && db.quotas == old(db.quotas)
    {
      row := NewRow(data, tenantId, newId);
      db.SetRows(t, Rows(db.Entities(), t) + [row]);
    }

    method Update(t: Table, where: Where, data: Row) returns (count: nat)
      modifies db
      ensures (db.Entities(), count) == ScopedUpdate(old(db.Entities()), t, where, data, tenantId)
      ensures db.users == old(db.users) && db.tenants == old(db.tenants) && db.members == old(db.members) && db.quotas == old(db.quotas)
    {
      var r := ScopedUpdate(db.Entities(), t, where, data, tenantId);
      db.SetRows(t, Rows(r.0, t));
      count := r.1;
    }

    method Delete(t: Table, where: Where) returns (count: nat)
      modifies db
      ensures (db.Entities(), count) == ScopedDelete(old(db.Entities()), t, where, tenantId)
      ensures db.users == old(db.users) && db.tenants == old(db.tenants) && db.members == old(db.members) && db.quotas == old(db.quotas)
    {
      var r := ScopedDelete(db.Entities(), t, where, tenantId);
      db.SetRows(t, Rows(r.0, t));
      count := r.1;
    }
  }
}
