/** packages/worker/src/delivery/visibility.ts: the leases the worker keeps on hidden messages, and
    the sweeps that renew them. A sweep is outstanding from the moment its renewal calls are sent
    until all of them are answered; whatever happens in between is a separate step. */
module VisibilityLeases {
  import opened Common
  import opened Store

  type Receipt = nat

  const LEASE_MS := 30_000
  const MARGIN_MS := 5000
  const BATCH := 10

  /** `token` is the identity of the entry object: tracking a receipt again makes a new one. */
  datatype Entry = Entry(token: nat, expiresAt: int)
  datatype Item = Item(receipt: Receipt, token: nat)

  /** One renewal call of a sweep. */
  datatype Call = Call(batch: seq<Item>, startedAt: int, answered: bool)
  datatype Sweep = Sweep(id: nat, calls: seq<Call>)

  /** `order` is the insertion order of the Map `receipts`. */
  datatype Leases = Leases(receipts: map<Receipt, Entry>, order: seq<Receipt>, sweep: Option<Sweep>,
                           nextToken: nat, nextSweep: nat)

  const Fresh := Leases(map[], [], None, 0, 0)

  // ---- what each method does to the state ----

  function AfterTrack(s: Leases, r: Receipt, now: int): Leases {
    s.(receipts := s.receipts[r := Entry(s.nextToken, now + LEASE_MS)],
       order := if r in s.receipts then s.order else s.order + [r],
       nextToken := s.nextToken + 1)
  }

  function Without(q: seq<Receipt>, r: Receipt): (p: seq<Receipt>)
    ensures forall x :: x in p <==> x in q && x != r
  {
    if q == [] then [] else if q[0] == r then Without(q[1..], r) else [q[0]] + Without(q[1..], r)
  }

  lemma {:induction false} WithoutDistinct(q: seq<Receipt>, r: Receipt)
    requires Distinct(q)
    ensures Distinct(Without(q, r))
  {
    if q != [] {
      WithoutDistinct(q[1..], r);
      assert q[0] !in q[1..];
    }
  }

  /** The synchronous part of release. */
  function AfterDrop(s: Leases, r: Receipt): Leases {
    s.(receipts := s.receipts - {r}, order := Without(s.order, r))
  }

  predicate HoldsLease(s: Leases, r: Receipt, now: int) {
    (if r in s.receipts then s.receipts[r].expiresAt else 0) > now + MARGIN_MS
  }

  /** The entries that have not expired, in the order of the Map. */
  function Live(receipts: map<Receipt, Entry>, order: seq<Receipt>, now: int): seq<Item> {
    if order == [] then []
    else
      var r := order[0];
      (if r in receipts && receipts[r].expiresAt > now then [Item(r, receipts[r].token)] else [])
      + Live(receipts, order[1..], now)
  }

  lemma LiveNext(receipts: map<Receipt, Entry>, order: seq<Receipt>, i: nat, now: int)
    requires i < |order|
    ensures var r := order[i];
            Live(receipts, order[i..], now) ==
              (if r in receipts && receipts[r].expiresAt > now then [Item(r, receipts[r].token)] else [])
              + Live(receipts, order[i + 1..], now)
  {
    assert order[i..][1..] == order[i + 1..];
  }

  lemma LiveNothing(receipts: map<Receipt, Entry>, order: seq<Receipt>, now: int)
    ensures Live(receipts, order[|order|..], now) == []
  {
  }

  function Batches(items: seq<Item>): seq<seq<Item>> {
    if |items| <= BATCH then (if items == [] then [] else [items])
    else [items[..BATCH]] + Batches(items[BATCH..])
  }

  /** The clock as call `i` begins: each call reads it for itself, `waits[i]` after the sweep began. */
  function StartOf(now: int, waits: seq<nat>, i: nat): int {
    now + if i < |waits| then waits[i] else 0
  }

  function CallsOf(batches: seq<seq<Item>>, now: int, waits: seq<nat>): (calls: seq<Call>)
    ensures |calls| == |batches|
    ensures forall i | 0 <= i < |calls| :: calls[i] == Call(batches[i], StartOf(now, waits, i), false)
  {
    seq(|batches|, i requires 0 <= i < |batches| => Call(batches[i], StartOf(now, waits, i), false))
  }

  /** renewNow: a sweep that is outstanding is joined, otherwise one starts. */
  function AfterRenew(s: Leases, now: int, waits: seq<nat>): Leases {
    if s.sweep.Some? then s
    else s.(sweep := Some(Sweep(s.nextSweep, CallsOf(Batches(Live(s.receipts, s.order, now)), now, waits))),
            nextSweep := s.nextSweep + 1)
  }

  /** A confirmed entry runs from the start of the call; an unconfirmed or failed one is given up. */
  function Renewed(receipts: map<Receipt, Entry>, batch: seq<Item>, startedAt: int,
                   confirmed: Option<set<Receipt>>): (t: map<Receipt, Entry>)
    ensures t.Keys == receipts.Keys
  {
    if batch == [] then receipts
    else Renewed(RenewOne(receipts, batch[0], startedAt, confirmed), batch[1..], startedAt, confirmed)
  }

  function RenewOne(receipts: map<Receipt, Entry>, item: Item, startedAt: int,
                    confirmed: Option<set<Receipt>>): (t: map<Receipt, Entry>)
    ensures t.Keys == receipts.Keys
  {
    if item.receipt in receipts && receipts[item.receipt].token == item.token then
      receipts[item.receipt := Entry(item.token,
        if confirmed.Some? && item.receipt in confirmed.value then startedAt + LEASE_MS else 0)]
    else receipts
  }

  predicate Awaits(s: Leases, i: nat) {
    s.sweep.Some? && i < |s.sweep.value.calls| && !s.sweep.value.calls[i].answered
  }

  /** Call `i` of the outstanding sweep is answered; `confirmed` is None when the request failed. */
  function AfterAnswer(s: Leases, i: nat, confirmed: Option<set<Receipt>>): Leases
    requires Awaits(s, i)
  {
    var sweep := s.sweep.value;
    var call := sweep.calls[i];
    s.(receipts := Renewed(s.receipts, call.batch, call.startedAt, confirmed),
       sweep := Some(sweep.(calls := sweep.calls[i := call.(answered := true)])))
  }

  predicate AllAnswered(sweep: Sweep) {
    forall i | 0 <= i < |sweep.calls| :: sweep.calls[i].answered
  }

  /** The sweep's promise settles and `pending` is cleared. */
  function AfterSettle(s: Leases): Leases {
    if s.sweep.Some? && AllAnswered(s.sweep.value) then s.(sweep := None) else s
  }

  // ---- the class ----

  class VisibilityLeases {
    var receipts: map<Receipt, Entry>
    var order: seq<Receipt>
    var sweep: Option<Sweep>
    var nextToken: nat
    var nextSweep: nat

    function State(): Leases
      reads this
    {
      Leases(receipts, order, sweep, nextToken, nextSweep)
    }

    constructor ()
      ensures State() == Fresh
    {
      receipts, order, sweep, nextToken, nextSweep := map[], [], None, 0, 0;
    }

    method Track(receipt: Receipt, now: int)
      modifies this
      ensures State() == AfterTrack(old(State()), receipt, now)
    {
      if receipt !in receipts {
        order := order + [receipt];
      }
      receipts := receipts[receipt := Entry(nextToken, now + LEASE_MS)];
      nextToken := nextToken + 1;
    }

    method IsCurrent(receipt: Receipt, now: int) returns (current: bool)
      ensures current <==> HoldsLease(State(), receipt, now)
    {
      var expiresAt := 0;
      if receipt in receipts {
        expiresAt := receipts[receipt].expiresAt;
      }
      current := expiresAt > now + MARGIN_MS;
    }

    /** Removes the receipt; the caller then waits for the sweep returned, if any. */
    method Release(receipt: Receipt) returns (awaited: Option<nat>)
      modifies this
      ensures State() == AfterDrop(old(State()), receipt)
      ensures awaited == if sweep.Some? then Some(sweep.value.id) else None
    {
      receipts := receipts - {receipt};
      order := Without(order, receipt);
      awaited := if sweep.Some? then Some(sweep.value.id) else None;
    }

    method RenewNow(now: int, waits: seq<nat>)
      modifies this
      ensures State() == AfterRenew(old(State()), now, waits)
    {
      if sweep.Some? {
        return;
      }
      var entries := LiveEntries(now);
      var batches := InBatches(entries);
      sweep := Some(Sweep(nextSweep, CallsOf(batches, now, waits)));
      nextSweep := nextSweep + 1;
    }

    method LiveEntries(now: int) returns (entries: seq<Item>)
      ensures entries == Live(receipts, order, now)
    {
      hide Live;
      entries := [];
      for i := 0 to |order|
        invariant entries + Live(receipts, order[i..], now) == Live(receipts, order, now)
      {
        var r := order[i];
        LiveNext(receipts, order, i, now);
        if r in receipts && receipts[r].expiresAt > now {
          entries := entries + [Item(r, receipts[r].token)];
        }
      }
      LiveNothing(receipts, order, now);
    }

    static method InBatches(entries: seq<Item>) returns (batches: seq<seq<Item>>)
      ensures batches == Batches(entries)
    {
      batches := [];
      var offset := 0;
      while offset < |entries|
        invariant 0 <= offset
        invariant batches + Batches(if offset < |entries| then entries[offset..] else []) == Batches(entries)
      {
        var end := if offset + BATCH < |entries| then offset + BATCH else |entries|;
        batches := batches + [entries[offset..end]];
        assert offset + BATCH < |entries| ==> entries[offset..][BATCH..] == entries[end..]
                                              && entries[offset..][..BATCH] == entries[offset..end];
        assert offset + BATCH >= |entries| ==> entries[offset..] == entries[offset..end];
        offset := offset + BATCH;
      }
    }

    method Answer(i: nat, confirmed: Option<set<Receipt>>)
      requires Awaits(State(), i)
      modifies this
      ensures State() == AfterAnswer(old(State()), i, confirmed)
    {
      var call := sweep.value.calls[i];
      ghost var before := receipts;
      for k := 0 to |call.batch|
        invariant Renewed(receipts, call.batch[k..], call.startedAt, confirmed)
                  == Renewed(before, call.batch, call.startedAt, confirmed)
        invariant order == old(order) && sweep == old(sweep) && nextToken == old(nextToken)
                  && nextSweep == old(nextSweep)
      {
        var item := call.batch[k];
        assert call.batch[k..][1..] == call.batch[k + 1..];
        if item.receipt in receipts && receipts[item.receipt].token == item.token {
          var expiresAt := if confirmed.Some? && item.receipt in confirmed.value then call.startedAt + LEASE_MS else 0;
          receipts := receipts[item.receipt := Entry(item.token, expiresAt)];
        }
      }
      sweep := Some(sweep.value.(calls := sweep.value.calls[i := call.(answered := true)]));
    }

    method Settle()
      modifies this
      ensures State() == AfterSettle(old(State()))
    {
      if sweep.Some? && AllAnswered(sweep.value) {
        sweep := None;
      }
    }

    /** stop, once the outstanding sweep has settled. */
    method Clear()
      requires sweep.None?
      modifies this
      ensures receipts == map[] && order == [] && sweep.None?
      ensures nextToken == old(nextToken) && nextSweep == old(nextSweep)
    {
      receipts := map[];
      order := [];
    }
  }
}
