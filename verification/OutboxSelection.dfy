/** packages/worker/src/repositories/outbox.ts: the ranked, rotated selection of pending rows. */
module OutboxSelection {
  import opened Common
  import opened Orders

  type TenantId = nat

  /** The text the tenants are compared with: a tenant, or the empty text, which is before every tenant. */
  type Cursor = c: int | c >= EMPTY witness EMPTY
  const EMPTY := -1

  /** An unpublished outbox row with the tenant of its event. */
  datatype Row = Row(id: nat, tenant: TenantId, createdAt: int)

  ghost predicate Keyed(rows: set<Row>) {
    forall a, b | a in rows && b in rows && a.id == b.id :: a == b
  }

  /** PARTITION BY tenant ORDER BY created_at, id. */
  predicate Older(a: Row, b: Row) {
    a.tenant == b.tenant && (a.createdAt < b.createdAt || (a.createdAt == b.createdAt && a.id < b.id))
  }

  ghost function OlderRows(pending: set<Row>, r: Row): set<Row> {
    set x | x in pending && Older(x, r)
  }

  /** ROW_NUMBER() of the row within its tenant. */
  ghost function Position(pending: set<Row>, r: Row): nat {
    |OlderRows(pending, r)| + 1
  }

  /** CASE WHEN tenant_id > after THEN 0 ELSE 1 END, tenant_id. */
  predicate RotatedBefore(after: Cursor, t: TenantId, u: TenantId) {
    if (t > after) == (u > after) then t < u else t > after
  }

  ghost predicate Before(pending: set<Row>, after: Cursor, a: Row, b: Row) {
    || Position(pending, a) < Position(pending, b)
    || (Position(pending, a) == Position(pending, b) && RotatedBefore(after, a.tenant, b.tenant))
  }

  lemma PositionStrict(pending: set<Row>, a: Row, b: Row)
    requires a in pending && Older(a, b)
    ensures Position(pending, a) < Position(pending, b)
  {
    assert OlderRows(pending, a) + {a} <= OlderRows(pending, b);
    SubsetSize(OlderRows(pending, a) + {a}, OlderRows(pending, b));
  }

  lemma BeforeTotal(pending: set<Row>, after: Cursor)
    requires Keyed(pending)
    ensures TotalOn((a, b) => Before(pending, after, a, b), pending)
  {
    forall a, b | a in pending && b in pending && a != b
      ensures Before(pending, after, a, b) || Before(pending, after, b, a)
    {
      if a.tenant == b.tenant {
        if Older(a, b) { PositionStrict(pending, a, b); } else { PositionStrict(pending, b, a); }
      }
    }
  }

  /** listUnpublished: ORDER BY position, rotation, tenant LIMIT limit. */
  ghost function Select(pending: set<Row>, limit: nat, after: Cursor): (batch: seq<Row>)
    requires Keyed(pending)
    ensures |batch| == Min(limit, |pending|)
    ensures forall r | r in batch :: r in pending
  {
    BeforeTotal(pending, after);
    Sort((a, b) => Before(pending, after, a, b), pending)[..Min(limit, |pending|)]
  }

  /** A selected row has before it, in the batch, every pending row that precedes it. */
  lemma SelectClosed(pending: set<Row>, limit: nat, after: Cursor, x: Row, y: Row)
    requires Keyed(pending) && x in Select(pending, limit, after) && y in pending && Before(pending, after, y, x)
    ensures y in Select(pending, limit, after)
  {
    BeforeTotal(pending, after);
    PrefixClosed((a, b) => Before(pending, after, a, b), pending, Min(limit, |pending|), x, y);
  }

  lemma SelectSorted(pending: set<Row>, limit: nat, after: Cursor)
    requires Keyed(pending)
    ensures forall i, j | 0 <= i < j < |Select(pending, limit, after)| ::
      Before(pending, after, Select(pending, limit, after)[i], Select(pending, limit, after)[j])
  {
    BeforeTotal(pending, after);
  }

  lemma SelectDistinct(pending: set<Row>, limit: nat, after: Cursor)
    requires Keyed(pending)
    ensures |Elements(Select(pending, limit, after))| == Min(limit, |pending|)
  {
    SelectSorted(pending, limit, after);
    DistinctCount(Select(pending, limit, after));
  }

  /** Each tenant's selected rows are an oldest-first prefix of its pending rows: what was created earlier, or at
      the same time with the smaller identifier, comes before. */
  lemma OldestFirst(pending: set<Row>, limit: nat, after: Cursor, x: Row, y: Row)
    requires Keyed(pending) && x in Select(pending, limit, after) && y in pending && y.tenant == x.tenant
    requires y.createdAt < x.createdAt || (y.createdAt == x.createdAt && y.id < x.id)
    ensures y in Select(pending, limit, after)
    ensures exists i, j :: 0 <= i < j < |Select(pending, limit, after)| &&
                           Select(pending, limit, after)[i] == y && Select(pending, limit, after)[j] == x
  {
    PositionStrict(pending, y, x);
    SelectClosed(pending, limit, after, x, y);
    SelectSorted(pending, limit, after);
    var batch := Select(pending, limit, after);
    var i :| 0 <= i < |batch| && batch[i] == y;
    var j :| 0 <= j < |batch| && batch[j] == x;
    assert i >= j ==> i == j || Before(pending, after, x, y);
  }

  ghost function OfTenant(rows: set<Row>, t: TenantId): set<Row> {
    set r | r in rows && r.tenant == t
  }

  ghost function Selected(pending: set<Row>, limit: nat, after: Cursor, t: TenantId): set<Row>
    requires Keyed(pending)
  {
    OfTenant(Elements(Select(pending, limit, after)), t)
  }

  ghost function UpTo(pending: set<Row>, t: TenantId, k: nat): set<Row> {
    set r | r in pending && r.tenant == t && Position(pending, r) <= k
  }

  lemma OlderTotal(rows: set<Row>, t: TenantId)
    requires Keyed(rows)
    ensures TotalOn(Older, OfTenant(rows, t))
  {
  }

  /** If not all rows of the tenant have a position below `k`, one has position `k` or less. */
  lemma NextPosition(pending: set<Row>, t: TenantId, k: nat) returns (m: Row)
    requires Keyed(pending) && k > 0 && |UpTo(pending, t, k - 1)| < k
    requires UpTo(pending, t, k - 1) != OfTenant(pending, t)
    ensures m in UpTo(pending, t, k) && m !in UpTo(pending, t, k - 1)
  {
    var low := UpTo(pending, t, k - 1);
    OlderTotal(pending, t);
    var rest := OfTenant(pending, t) - low;
    assert low + rest == OfTenant(pending, t);
    hide TotalOn;
    m := Least(Older, rest);
    assert OlderRows(pending, m) <= low;
    SubsetSize(OlderRows(pending, m), low);
  }

  /** Positions run from one upwards without a gap. */
  lemma {:induction false} PositionsFilled(pending: set<Row>, t: TenantId, k: nat)
    requires Keyed(pending)
    ensures |UpTo(pending, t, k)| >= Min(|OfTenant(pending, t)|, k)
  {
    hide Keyed, OlderRows;
    if k > 0 {
      PositionsFilled(pending, t, k - 1);
      var low := UpTo(pending, t, k - 1);
      assert low <= UpTo(pending, t, k);
      SubsetSize(low, UpTo(pending, t, k));
      if |low| < k && low != OfTenant(pending, t) {
        var m := NextPosition(pending, t, k);
        SubsetSize(low + {m}, UpTo(pending, t, k));
      }
    }
  }

  /** The newest of some rows of a tenant has all the others before it. */
  lemma NewestPosition(pending: set<Row>, t: TenantId, some: set<Row>)
    requires Keyed(pending) && some <= OfTenant(pending, t) && some != {}
    ensures exists r :: r in some && Position(pending, r) >= |some|
  {
    var newer := (a: Row, b: Row) => Older(b, a);
    assert TotalOn(newer, some) by { OlderTotal(pending, t); }
    var r := Least(newer, some);
    assert some - {r} <= OlderRows(pending, r);
    SubsetSize(some - {r}, OlderRows(pending, r));
  }

  /** Round-robin fairness: no tenant gets two rows more than another that still had rows to send. */
  lemma FairBatch(pending: set<Row>, limit: nat, after: Cursor, t: TenantId, u: TenantId)
    requires Keyed(pending)
    ensures |Selected(pending, limit, after, t)| >=
              Min(|OfTenant(pending, t)|, |Selected(pending, limit, after, u)| - 1)
  {
    var mine := Selected(pending, limit, after, u);
    var c := |mine|;
    if c > 1 {
      NewestPosition(pending, u, mine);
      var r :| r in mine && Position(pending, r) >= c;
      PositionsFilled(pending, t, c - 1);
      forall x | x in UpTo(pending, t, c - 1) ensures x in Selected(pending, limit, after, t) {
        SelectClosed(pending, limit, after, r, x);
      }
      SubsetSize(UpTo(pending, t, c - 1), Selected(pending, limit, after, t));
    }
  }
}
