/** packages/worker/src/outbox-poller.ts: ticks of the leading publisher and the tenant cursor that
    is carried from one tick to the next. */
module OutboxPoller {
  import opened Orders
  import opened OutboxSelection

  /** rows.at(-1)?.event.tenantId ?? afterTenantId */
  function NextAfter(rows: seq<Row>, after: Cursor): Cursor {
    if rows == [] then after else rows[|rows| - 1].tenant
  }

  // ---- the process ----

  /** How one publication went: the send is confirmed or fails, then the row is marked or not. */
  datatype Publication = SendFailed | PersistFailed | Published

  function Marked(rows: seq<Row>, outcomes: seq<Publication>): set<Row>
    requires |rows| == |outcomes|
  {
    set i | 0 <= i < |rows| && outcomes[i].Published? :: rows[i]
  }

  class Poller {
    /** The rows with `published = false`. */
    var pending: set<Row>
    var afterTenantId: Cursor
    var isLeader: bool

    constructor ()
      ensures pending == {} && afterTenantId == EMPTY && !isLeader
    {
      pending, afterTenantId, isLeader := {}, EMPTY, false;
    }

    /** The row is marked only after the send is confirmed; a failed step rejects. */
    method PublishOne(row: Row, outcome: Publication) returns (rejected: bool)
      modifies this`pending
      ensures pending == if outcome.Published? then old(pending) - {row} else old(pending)
      ensures rejected <==> !outcome.Published?
    {
      if outcome.SendFailed? {
        return true;
      }
      if outcome.PersistFailed? {
        return true;
      }
      pending := pending - {row};
      rejected := false;
    }

    /** Promise.allSettled over the publications, and the scan of its results. */
    method PublishAll(rows: seq<Row>, outcomes: seq<Publication>) returns (failed: bool)
      requires |outcomes| == |rows|
      modifies this`pending
      ensures pending == old(pending) - Marked(rows, outcomes)
      ensures failed <==> exists i :: 0 <= i < |rows| && !outcomes[i].Published?
    {
      failed := false;
      for i := 0 to |rows|
        invariant pending == old(pending) - Marked(rows[..i], outcomes[..i])
        invariant failed <==> exists j :: 0 <= j < i && !outcomes[j].Published?
      {
        var rejected := PublishOne(rows[i], outcomes[i]);
        failed := failed || rejected;
        MarkedStep(rows, outcomes, i);
      }
      assert rows[..|rows|] == rows && outcomes[..|rows|] == outcomes;
    }

    /** `rows` is the database's answer to listUnpublished. */
    method Tick(limit: nat, rows: seq<Row>, outcomes: seq<Publication>) returns (count: nat, failed: bool)
      requires Keyed(pending) && rows == Select(pending, limit, afterTenantId) && |outcomes| == |rows|
      modifies this`pending, this`afterTenantId
      ensures pending == old(pending) - Marked(rows, outcomes)
      ensures afterTenantId == NextAfter(rows, old(afterTenantId))
      ensures count == |rows|
      ensures failed <==> exists i :: 0 <= i < |rows| && !outcomes[i].Published?
    {
      failed := PublishAll(rows, outcomes);
      count := |rows|;
      afterTenantId := NextAfter(rows, afterTenantId);
    }

    /** One turn of the loop in main. The cursor moves exactly when a tick completed, also when some
        of its publications failed and leadership is given up. */
    method Turn(lockFree: bool, limit: nat, answer: Answer) returns (ticked: bool)
      requires Keyed(pending)
      requires answer.Rows? ==>
                 answer.rows == Select(pending, limit, afterTenantId) && |answer.outcomes| == |answer.rows|
      modifies this
      ensures ticked <==> (old(isLeader) || lockFree) && answer.Rows?
      ensures ticked ==> pending == old(pending) - Marked(answer.rows, answer.outcomes)
      ensures ticked ==> afterTenantId == NextAfter(answer.rows, old(afterTenantId))
      ensures !ticked ==> pending == old(pending) && afterTenantId == old(afterTenantId)
      ensures isLeader <==> ticked && forall i :: 0 <= i < |answer.rows| ==> answer.outcomes[i].Published?
    {
      ticked := false;
      if !isLeader {
        isLeader := lockFree;
        if !isLeader {
          return;
        }
      }
      match answer {
        case QueryFailed =>
          isLeader := false;
        case Rows(rows, outcomes) =>
          var count, failed := Tick(limit, rows, outcomes);
          ticked := true;
          if failed {
            isLeader := false;
          }
      }
    }
  }

  datatype Answer = QueryFailed | Rows(rows: seq<Row>, outcomes: seq<Publication>)

  lemma MarkedStep(rows: seq<Row>, outcomes: seq<Publication>, i: nat)
    requires |rows| == |outcomes| && i < |rows|
    ensures Marked(rows[..i + 1], outcomes[..i + 1]) ==
            Marked(rows[..i], outcomes[..i]) + if outcomes[i].Published? then {rows[i]} else {}
  {
    var a, b := Marked(rows[..i + 1], outcomes[..i + 1]), Marked(rows[..i], outcomes[..i]);
    forall x | x in a ensures x in b + if outcomes[i].Published? then {rows[i]} else {} {
      var k :| 0 <= k < i + 1 && outcomes[..i + 1][k].Published? && rows[..i + 1][k] == x;
      if k < i { assert outcomes[..i][k].Published? && rows[..i][k] == x; }
    }
    forall x | x in b ensures x in a {
      var k :| 0 <= k < i && outcomes[..i][k].Published? && rows[..i][k] == x;
      assert outcomes[..i + 1][k].Published? && rows[..i + 1][k] == x;
    }
    if outcomes[i].Published? {
      assert outcomes[..i + 1][i].Published? && rows[..i + 1][i] == rows[i];
    }
  }

  // ---- progress of the rotation ----

  ghost function Tenants(rows: set<Row>): set<TenantId> {
    set r | r in rows :: r.tenant
  }

  ghost predicate Selects(pending: set<Row>, limit: nat, after: Cursor, t: TenantId)
    requires Keyed(pending)
  {
    exists r :: r in Select(pending, limit, after) && r.tenant == t
  }

  /** The tenants from the cursor up to and including `t`, in rotation order. */
  ghost function Ahead(tenants: set<TenantId>, after: Cursor, t: TenantId): set<TenantId> {
    set u | u in tenants && (u == t || RotatedBefore(after, u, t))
  }

  /** When a tenant with pending work is passed over, the whole batch went to tenants ahead of it. */
  lemma PassedOver(pending: set<Row>, limit: nat, after: Cursor, t: TenantId)
    requires Keyed(pending) && limit >= 1
    requires t in Tenants(pending) && !Selects(pending, limit, after, t)
    ensures |Select(pending, limit, after)| == limit
    ensures forall r | r in Select(pending, limit, after) ::
              Position(pending, r) == 1 && r.tenant != t && RotatedBefore(after, r.tenant, t)
  {
    OlderTotal(pending, t);
    var first := Least(Older, OfTenant(pending, t));
    assert OlderRows(pending, first) == {};
    var batch := Select(pending, limit, after);
    assert first !in batch;
    forall r | r in batch
      ensures Position(pending, r) == 1 && r.tenant != t && RotatedBefore(after, r.tenant, t)
    {
      if Before(pending, after, first, r) { SelectClosed(pending, limit, after, r, first); }
      BeforeTotal(pending, after);
    }
    if |batch| < limit {
      Everything(pending, limit, after, first);
    }
  }

  lemma Everything(pending: set<Row>, limit: nat, after: Cursor, r: Row)
    requires Keyed(pending) && r in pending && limit >= |pending|
    ensures r in Select(pending, limit, after)
  {
    BeforeTotal(pending, after);
    var q := Sort((a, b) => Before(pending, after, a, b), pending);
    assert q[..|pending|] == q;
  }

  /** Turning the rotation to a tenant ahead of `t` only drops the tenants up to it. */
  lemma Turned(after: Cursor, b: TenantId, u: TenantId, t: TenantId)
    requires b != t && RotatedBefore(after, b, t) && u != t && RotatedBefore(b, u, t)
    ensures RotatedBefore(after, u, t) && RotatedBefore(after, b, u) && u != b
  {
  }

  ghost function Served(batch: seq<Row>): set<TenantId> {
    set r | r in batch :: r.tenant
  }

  /** The tenants of a batch that passed `t` over are `limit` different ones, the last of them the next cursor. */
  lemma BatchTenants(pending: set<Row>, limit: nat, after: Cursor, t: TenantId)
    requires Keyed(pending) && limit >= 1
    requires t in Tenants(pending) && !Selects(pending, limit, after, t)
    ensures var batch := Select(pending, limit, after);
            && |batch| == limit && |Served(batch)| == limit
            && NextAfter(batch, after) != t && RotatedBefore(after, NextAfter(batch, after), t)
            && (forall u | u in Served(batch) :: u != t && RotatedBefore(after, u, t))
            && (forall u | u in Served(batch) ::
                  u == NextAfter(batch, after) || RotatedBefore(after, u, NextAfter(batch, after)))
  {
    PassedOver(pending, limit, after, t);
    SelectSorted(pending, limit, after);
    var batch := Select(pending, limit, after);
    hide Select, Before, Position;
    RotationOfBatch(pending, after, batch);
  }

  lemma RotationOfBatch(pending: set<Row>, after: Cursor, batch: seq<Row>)
    requires forall i, j | 0 <= i < j < |batch| :: Before(pending, after, batch[i], batch[j])
    requires forall r | r in batch :: Position(pending, r) == 1
    requires batch != []
    ensures |Served(batch)| == |batch|
    ensures forall u | u in Served(batch) ::
            u == NextAfter(batch, after) || RotatedBefore(after, u, NextAfter(batch, after))
  {
    var tenants := seq(|batch|, i requires 0 <= i < |batch| => batch[i].tenant);
    forall i, j | 0 <= i < j < |batch|
      ensures tenants[i] != tenants[j] && RotatedBefore(after, tenants[i], tenants[j])
    {
      assert Before(pending, after, batch[i], batch[j]);
      assert batch[i] in batch && batch[j] in batch;
    }
    DistinctCount(tenants);
    forall u ensures u in Elements(tenants) <==> u in Served(batch) {
      if u in Elements(tenants) {
        var i :| 0 <= i < |batch| && tenants[i] == u;
        assert batch[i] in batch;
      }
      if u in Served(batch) {
        var i :| 0 <= i < |batch| && batch[i].tenant == u;
        assert tenants[i] == u;
      }
    }
    assert Elements(tenants) == Served(batch);
  }

  /** Every tick that passes a waiting tenant over brings the cursor `limit` tenants closer to it. */
  lemma CursorAdvances(tenants: set<TenantId>, pending: set<Row>, limit: nat, after: Cursor, t: TenantId)
    requires Keyed(pending) && limit >= 1 && Tenants(pending) <= tenants
    requires t in Tenants(pending) && !Selects(pending, limit, after, t)
    ensures |Ahead(tenants, NextAfter(Select(pending, limit, after), after), t)| <= |Ahead(tenants, after, t)| - limit
  {
    var batch := Select(pending, limit, after);
    BatchTenants(pending, limit, after, t);
    assert Served(batch) <= Tenants(pending);
    hide Select, Selects, Tenants;
    AheadShrinks(tenants, after, NextAfter(batch, after), t, Served(batch));
  }

  lemma AheadShrinks(tenants: set<TenantId>, after: Cursor, b: TenantId, t: TenantId, served: set<TenantId>)
    requires served <= tenants && b != t && RotatedBefore(after, b, t)
    requires forall u | u in served :: u != t && RotatedBefore(after, u, t)
    requires forall u | u in served :: u == b || RotatedBefore(after, u, b)
    ensures |Ahead(tenants, b, t)| <= |Ahead(tenants, after, t)| - |served|
  {
    var now := Ahead(tenants, b, t);
    forall u | u in now ensures u in Ahead(tenants, after, t) && u !in served {
      if u != t { Turned(after, b, u, t); }
    }
    SubsetSize(now + served, Ahead(tenants, after, t));
    assert |now + served| == |now| + |served|;
  }

  // ---- any number of ticks ----

  /** What reaches a tick from outside: rows committed meanwhile, and how the publications went. */
  datatype Input = Input(arrivals: set<Row>, outcomes: seq<Publication>)
  datatype Ticking = Ticking(pending: set<Row>, after: Cursor)

  ghost predicate Fits(s: Ticking, limit: nat, input: Input) {
    && Keyed(s.pending)
    && |input.outcomes| == |Select(s.pending, limit, s.after)|
  }

  /** The state Poller.Tick leaves, with the rows that arrived until the next tick. */
  ghost function TickTo(s: Ticking, limit: nat, input: Input): Ticking
    requires Fits(s, limit, input)
  {
    var rows := Select(s.pending, limit, s.after);
    Ticking(s.pending - Marked(rows, input.outcomes) + input.arrivals, NextAfter(rows, s.after))
  }

  /** `states` are the states before each of the ticks `inputs`, and after the last one. */
  ghost predicate Ticks(states: seq<Ticking>, limit: nat, inputs: seq<Input>) {
    |states| == |inputs| + 1 && forall i | 0 <= i < |inputs| :: TickAt(states, limit, inputs, i)
  }

  ghost predicate TickAt(states: seq<Ticking>, limit: nat, inputs: seq<Input>, i: nat)
    requires |states| == |inputs| + 1 && i < |inputs|
  {
    Fits(states[i], limit, inputs[i]) && states[i + 1] == TickTo(states[i], limit, inputs[i])
  }

  function CeilDiv(n: nat, d: nat): (q: nat)
    requires d > 0
    ensures q * d >= n && (q - 1) * d < n
  {
    (n + d - 1) / d
  }

  ghost predicate SelectsAt(states: seq<Ticking>, limit: nat, i: nat, t: TenantId)
    requires i < |states|
  {
    Keyed(states[i].pending) && Selects(states[i].pending, limit, states[i].after, t)
  }

  lemma {:induction false} Passes(tenants: set<TenantId>, states: seq<Ticking>, limit: nat, inputs: seq<Input>,
                                  t: TenantId, from: nat, n: nat)
    requires limit >= 1 && Ticks(states, limit, inputs) && from + n <= |inputs|
    requires forall i | from <= i < from + n ::
               t in Tenants(states[i].pending) && Tenants(states[i].pending) <= tenants
                   && !SelectsAt(states, limit, i, t)
    ensures |Ahead(tenants, states[from + n].after, t)| <= |Ahead(tenants, states[from].after, t)| - n * limit
  {
    hide Ticks, SelectsAt, Tenants, Ahead;
    if n > 0 {
      Passes(tenants, states, limit, inputs, t, from, n - 1);
      PassedAt(tenants, states, limit, inputs, t, from + n - 1);
      assert n * limit == (n - 1) * limit + limit;
    }
  }

  lemma PassedAt(tenants: set<TenantId>, states: seq<Ticking>, limit: nat, inputs: seq<Input>, t: TenantId, i: nat)
    requires limit >= 1 && Ticks(states, limit, inputs) && i < |inputs|
    requires t in Tenants(states[i].pending) && Tenants(states[i].pending) <= tenants && !SelectsAt(states, limit, i, t)
    ensures |Ahead(tenants, states[i + 1].after, t)| <= |Ahead(tenants, states[i].after, t)| - limit
  {
    assert TickAt(states, limit, inputs, i);
    TickAdvances(tenants, states[i], limit, inputs[i], t);
  }

  lemma TickAdvances(tenants: set<TenantId>, s: Ticking, limit: nat, input: Input, t: TenantId)
    requires limit >= 1 && Fits(s, limit, input) && Tenants(s.pending) <= tenants
    requires t in Tenants(s.pending) && !Selects(s.pending, limit, s.after, t)
    ensures |Ahead(tenants, TickTo(s, limit, input).after, t)| <= |Ahead(tenants, s.after, t)| - limit
  {
    CursorAdvances(tenants, s.pending, limit, s.after, t);
  }

  /** A tenant that is passed over keeps its pending rows. */
  lemma StaysPending(s: Ticking, limit: nat, input: Input, t: TenantId)
    requires Fits(s, limit, input) && t in Tenants(s.pending) && !Selects(s.pending, limit, s.after, t)
    ensures t in Tenants(TickTo(s, limit, input).pending)
  {
    hide Select;
    var r :| r in s.pending && r.tenant == t;
    assert r !in Marked(Select(s.pending, limit, s.after), input.outcomes);
    assert r in TickTo(s, limit, input).pending;
  }

  lemma {:induction false} PendingWhilePassed(states: seq<Ticking>, limit: nat, inputs: seq<Input>, t: TenantId,
                                              from: nat, n: nat)
    requires Ticks(states, limit, inputs) && from + n <= |inputs| && t in Tenants(states[from].pending)
    requires forall i | from <= i < from + n :: !SelectsAt(states, limit, i, t)
    ensures t in Tenants(states[from + n].pending)
  {
    if n > 0 {
      PendingWhilePassed(states, limit, inputs, t, from, n - 1);
      var i := from + n - 1;
      assert TickAt(states, limit, inputs, i) && !SelectsAt(states, limit, i, t);
      hide Ticks, TickTo, Selects, Tenants;
      StaysPending(states[i], limit, inputs[i], t);
    }
  }

  /** No starvation: a tenant that has pending work is selected within ceil(N / limit) ticks, whatever
      rows arrive and whichever publications fail. */
  lemma SelectedInTime(tenants: set<TenantId>, states: seq<Ticking>, limit: nat, inputs: seq<Input>, t: TenantId,
                       from: nat)
    requires limit >= 1 && Ticks(states, limit, inputs) && from + CeilDiv(|tenants|, limit) <= |inputs|
    requires forall i | from <= i < from + CeilDiv(|tenants|, limit) :: Tenants(states[i].pending) <= tenants
    requires t in tenants && t in Tenants(states[from].pending)
    ensures exists i :: from <= i < from + CeilDiv(|tenants|, limit) && SelectsAt(states, limit, i, t)
  {
    hide Tenants, SelectsAt;
    var n := CeilDiv(|tenants|, limit);
    if forall i | from <= i < from + n :: !SelectsAt(states, limit, i, t) {
      forall i | from <= i < from + n ensures t in Tenants(states[i].pending) {
        PendingWhilePassed(states, limit, inputs, t, from, i - from);
      }
      Passes(tenants, states, limit, inputs, t, from, n);
      AheadBounds(tenants, states[from].after, t);
      AheadBounds(tenants, states[from + n].after, t);
      assert false;
    }
  }

  lemma AheadBounds(tenants: set<TenantId>, after: Cursor, t: TenantId)
    requires t in tenants
    ensures 1 <= |Ahead(tenants, after, t)| <= |tenants|
  {
    SubsetSize(Ahead(tenants, after, t), tenants);
    SubsetSize({t}, Ahead(tenants, after, t));
  }

  /** The publications of the tenant's rows all succeed, and no row older than `r` arrives. */
  ghost predicate Favours(s: Ticking, limit: nat, input: Input, r: Row)
    requires Fits(s, limit, input)
  {
    var rows := Select(s.pending, limit, s.after);
    && (forall j | 0 <= j < |rows| && rows[j].tenant == r.tenant :: input.outcomes[j].Published?)
    && (forall x | x in input.arrivals && x.tenant == r.tenant ::
          x.createdAt > r.createdAt || (x.createdAt == r.createdAt && x.id >= r.id))
  }

  /** While `r` waits no older row joins it, and a tick that serves its tenant takes an older one away. */
  lemma OlderLeave(s: Ticking, limit: nat, input: Input, r: Row)
    requires Fits(s, limit, input) && Favours(s, limit, input, r)
    requires r in s.pending && r !in Select(s.pending, limit, s.after)
    ensures r in TickTo(s, limit, input).pending
    ensures OlderRows(TickTo(s, limit, input).pending, r) <= OlderRows(s.pending, r)
    ensures Selects(s.pending, limit, s.after, r.tenant) ==>
              OlderRows(TickTo(s, limit, input).pending, r) < OlderRows(s.pending, r)
  {
    var rows := Select(s.pending, limit, s.after);
    if Selects(s.pending, limit, s.after, r.tenant) {
      var m := OldestSelected(s.pending, limit, s.after, r.tenant);
      hide Select;
      var j :| 0 <= j < |rows| && rows[j] == m;
      assert m in Marked(rows, input.outcomes);
      assert m in OlderRows(s.pending, r);
      assert m !in OlderRows(TickTo(s, limit, input).pending, r);
    }
  }

  lemma OldestSelected(pending: set<Row>, limit: nat, after: Cursor, t: TenantId) returns (m: Row)
    requires Keyed(pending) && Selects(pending, limit, after, t)
    ensures m in Select(pending, limit, after) && m.tenant == t
    ensures forall x | x in pending && x.tenant == t && x != m :: Older(m, x)
  {
    var x :| x in Select(pending, limit, after) && x.tenant == t;
    assert x in OfTenant(pending, t);
    hide Select;
    OlderTotal(pending, t);
    m := Least(Older, OfTenant(pending, t));
    if m != x {
      assert Older(m, x);
      OldestFirst(pending, limit, after, x, m);
    }
    assert forall x | x in OfTenant(pending, t) && x != m :: Older(m, x);
  }

  ghost predicate AllFavour(states: seq<Ticking>, limit: nat, inputs: seq<Input>, r: Row)
    requires Ticks(states, limit, inputs)
  {
    forall i | 0 <= i < |inputs| :: FavoursAt(states, limit, inputs, r, i)
  }

  ghost predicate FavoursAt(states: seq<Ticking>, limit: nat, inputs: seq<Input>, r: Row, i: nat)
    requires Ticks(states, limit, inputs) && i < |inputs|
  {
    assert TickAt(states, limit, inputs, i);
    Favours(states[i], limit, inputs[i], r)
  }

  ghost predicate SelectsRowAt(states: seq<Ticking>, limit: nat, i: nat, r: Row)
    requires i < |states|
  {
    Keyed(states[i].pending) && r in Select(states[i].pending, limit, states[i].after)
  }

  lemma {:induction false} OlderOverTicks(states: seq<Ticking>, limit: nat, inputs: seq<Input>, r: Row, from: nat,
                                          n: nat)
    requires Ticks(states, limit, inputs) && AllFavour(states, limit, inputs, r) && from + n <= |inputs|
    requires forall i | from <= i < from + n :: !SelectsRowAt(states, limit, i, r)
    requires r in states[from].pending
    ensures r in states[from + n].pending
            && OlderRows(states[from + n].pending, r) <= OlderRows(states[from].pending, r)
  {
    if n > 0 {
      OlderOverTicks(states, limit, inputs, r, from, n - 1);
      var i := from + n - 1;
      assert !SelectsRowAt(states, limit, i, r) && TickAt(states, limit, inputs, i)
             && FavoursAt(states, limit, inputs, r, i);
      hide Favours, TickTo, OlderRows, Select;
      OlderLeave(states[i], limit, inputs[i], r);
    }
  }

  /** When publications succeed, a row with at most `k` pending rows of its tenant that were created before it
      is selected within (k + 1) * ceil(N / limit) ticks. */
  lemma RowSelectedInTime(tenants: set<TenantId>, states: seq<Ticking>, limit: nat, inputs: seq<Input>, r: Row, k: nat,
                          from: nat)
    requires limit >= 1 && Ticks(states, limit, inputs) && AllFavour(states, limit, inputs, r)
    requires from + (k + 1) * CeilDiv(|tenants|, limit) <= |inputs|
    requires forall i | 0 <= i < |inputs| :: Tenants(states[i].pending) <= tenants
    requires r in states[from].pending && r.tenant in tenants
    requires |set x | x in states[from].pending && x.tenant == r.tenant &&
                      (x.createdAt < r.createdAt || (x.createdAt == r.createdAt && x.id < r.id))| <= k
    ensures exists i :: from <= i < from + (k + 1) * CeilDiv(|tenants|, limit) && SelectsRowAt(states, limit, i, r)
  {
    assert OlderRows(states[from].pending, r) ==
           set x | x in states[from].pending && x.tenant == r.tenant &&
                   (x.createdAt < r.createdAt || (x.createdAt == r.createdAt && x.id < r.id));
    SelectedByAge(tenants, states, limit, inputs, r, k, from);
  }

  lemma {:induction false} SelectedByAge(tenants: set<TenantId>, states: seq<Ticking>, limit: nat,
                                         inputs: seq<Input>, r: Row, k: nat, from: nat)
    requires limit >= 1 && Ticks(states, limit, inputs) && AllFavour(states, limit, inputs, r)
    requires from + (k + 1) * CeilDiv(|tenants|, limit) <= |inputs|
    requires forall i | 0 <= i < |inputs| :: Tenants(states[i].pending) <= tenants
    requires r in states[from].pending && r.tenant in tenants && |OlderRows(states[from].pending, r)| <= k
    ensures exists i :: from <= i < from + (k + 1) * CeilDiv(|tenants|, limit) && SelectsRowAt(states, limit, i, r)
    decreases k
  {
    hide Favours, TickTo, Select, SelectsRowAt, Tenants;
    var round := CeilDiv(|tenants|, limit);
    var total := (k + 1) * round;
    assert total == round + k * round;
    if forall i | from <= i < from + total :: !SelectsRowAt(states, limit, i, r) {
      var i := OlderLeavesInRound(tenants, states, limit, inputs, r, from);
      if k > 0 {
        assert (k - 1 + 1) * round == k * round;
        SelectedByAge(tenants, states, limit, inputs, r, k - 1, i + 1);
        assert false;
      }
    }
  }

  /** A round in which `r` is not selected ends with fewer older rows. */
  lemma OlderLeavesInRound(tenants: set<TenantId>, states: seq<Ticking>, limit: nat, inputs: seq<Input>, r: Row,
                           from: nat)
    returns (i: nat)
    requires limit >= 1 && Ticks(states, limit, inputs) && AllFavour(states, limit, inputs, r)
    requires from + CeilDiv(|tenants|, limit) <= |inputs|
    requires forall i | 0 <= i < |inputs| :: Tenants(states[i].pending) <= tenants
    requires r in states[from].pending && r.tenant in tenants
    requires forall i | from <= i < from + CeilDiv(|tenants|, limit) :: !SelectsRowAt(states, limit, i, r)
    ensures from <= i < from + CeilDiv(|tenants|, limit)
    ensures r in states[i + 1].pending
    ensures |OlderRows(states[i + 1].pending, r)| < |OlderRows(states[from].pending, r)|
  {
    hide Favours, TickTo, Select;
    var round := CeilDiv(|tenants|, limit);
    SelectedInTime(tenants, states, limit, inputs, r.tenant, from);
    i :| from <= i < from + round && SelectsAt(states, limit, i, r.tenant);
    OlderOverTicks(states, limit, inputs, r, from, i - from);
    assert !SelectsRowAt(states, limit, i, r) && TickAt(states, limit, inputs, i)
           && FavoursAt(states, limit, inputs, r, i);
    OlderLeave(states[i], limit, inputs[i], r);
    ProperSubsetSize(OlderRows(states[i + 1].pending, r), OlderRows(states[from].pending, r));
  }
}
