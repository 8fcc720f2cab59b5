/** The leases against the queue: what the worker believes is hidden, SQS hides. One clock is read
    on both sides, and a receive response arrives at most five seconds after SQS hid its messages. */
module LeaseSafety {
  import opened Store
  import opened VisibilityLeases
  import opened LeaseRuns

  /** `hiddenUntil` is kept by SQS for every receipt it handed out. `inTransit` holds the receipts whose
      response has not arrived, with the time of the hiding; `released` the ones the worker gave up;
      `asked` every receipt that may have been in a renewal call; `applied` the entries of the calls awaited
      now that SQS carried out. */
  datatype World = World(leases: Leases, clock: nat, hiddenUntil: map<Receipt, int>, inTransit: map<Receipt, int>,
                         released: set<Receipt>, asked: set<Receipt>, applied: set<(nat, Receipt)>)

  const Start := World(Fresh, 0, map[], map[], {}, {}, {})

  datatype Move =
    | Wait(ms: nat)
    | Hide(receipt: Receipt)                 // SQS answers a receive and hides the message for 30 seconds
    | Arrive(receipt: Receipt)               // the response arrives and the receipt is tracked
    | SweepStart(waits: seq<nat>, ms: nat)   // renewNow; its calls begin within the next `ms`
    | Apply(call: nat, receipt: Receipt)     // SQS carries out one entry of a renewal call, perhaps of one
                                             // that the worker has given up long ago
    | Reply(call: nat, confirmed: Option<set<Receipt>>)
    | SweepDone
    | GiveUp(receipt: Receipt)               // release
    | Rehide(receipt: Receipt, until: int)   // hideUntil or a deferral, after the release

  predicate Within(w: World, receipt: Receipt) {
    receipt in w.inTransit && w.clock <= w.inTransit[receipt] + MARGIN_MS
  }

  predicate Owner(w: World, receipt: Receipt) {
    receipt in w.hiddenUntil && w.hiddenUntil[receipt] > w.clock
  }

  predicate InCall(w: World, call: nat, receipt: Receipt) {
    Awaits(w.leases, call) && exists x :: x in w.leases.sweep.value.calls[call].batch && x.receipt == receipt
  }

  function Go(w: World, m: Move): World {
    match m
    case Wait(ms) => w.(clock := w.clock + ms)
    case Hide(r) =>
      if r in w.hiddenUntil then w
      else w.(hiddenUntil := w.hiddenUntil[r := w.clock + LEASE_MS], inTransit := w.inTransit[r := w.clock])
    case Arrive(r) =>
      if Within(w, r) then w.(leases := AfterTrack(w.leases, r, w.clock), inTransit := w.inTransit - {r}) else w
    case SweepStart(waits, ms) =>
      if w.leases.sweep.Some? || exists k :: 0 <= k < |waits| && waits[k] > ms then w
      else w.(leases := AfterRenew(w.leases, w.clock, waits), clock := w.clock + ms,
              asked := w.asked + w.leases.receipts.Keys, applied := {})
    case Apply(i, r) =>
      if r in w.asked && Owner(w, r)
      then w.(hiddenUntil := w.hiddenUntil[r := w.clock + LEASE_MS],
              applied := if InCall(w, i, r) then w.applied + {(i, r)} else w.applied)
      else w
    case Reply(i, confirmed) =>
      if Awaits(w.leases, i) && (confirmed.Some? ==> forall r | r in confirmed.value :: (i, r) in w.applied)
      then w.(leases := AfterAnswer(w.leases, i, confirmed)) else w
    case SweepDone => w.(leases := AfterSettle(w.leases))
    case GiveUp(r) =>
      if r in w.hiddenUntil && r !in w.inTransit
      then w.(leases := AfterDrop(w.leases, r), released := w.released + {r}) else w
    case Rehide(r, until) => if r in w.released then w.(hiddenUntil := w.hiddenUntil[r := until]) else w
  }

  function RunMoves(moves: seq<Move>): World {
    if moves == [] then Start else Go(RunMoves(moves[..|moves| - 1]), moves[|moves| - 1])
  }

  ghost predicate LeaseOk(w: World, r: Receipt)
    requires r in w.leases.receipts
  {
    && r in w.hiddenUntil && r !in w.inTransit && r !in w.released
    && w.leases.receipts[r].expiresAt <= w.hiddenUntil[r] + MARGIN_MS
    && w.leases.receipts[r].expiresAt <= w.clock + LEASE_MS
    && w.leases.receipts[r].token < w.leases.nextToken
  }

  ghost predicate CallOk(w: World, i: nat)
    requires w.leases.sweep.Some? && i < |w.leases.sweep.value.calls|
  {
    var call := w.leases.sweep.value.calls[i];
    && 0 <= call.startedAt <= w.clock
    && (forall x | x in call.batch :: ItemOk(w, i, call, x))
  }

  /** An entry still in the Map was set at most 30 seconds before the end its renewal would give it. */
  ghost predicate ItemOk(w: World, i: nat, call: Call, x: Item) {
    && x.token < w.leases.nextToken
    && x.receipt in w.hiddenUntil && x.receipt !in w.inTransit
    && (x.receipt in w.leases.receipts && w.leases.receipts[x.receipt].token == x.token ==>
          w.leases.receipts[x.receipt].expiresAt <= call.startedAt + LEASE_MS)
    && ((i, x.receipt) in w.applied && x.receipt !in w.released ==>
          w.hiddenUntil[x.receipt] >= call.startedAt + LEASE_MS)
  }

  ghost predicate WorldOk(w: World) {
    && (forall r | r in w.leases.receipts :: LeaseOk(w, r))
    && (forall r | r in w.inTransit :: r in w.hiddenUntil && r !in w.released && w.inTransit[r] <= w.clock
                                       && w.hiddenUntil[r] == w.inTransit[r] + LEASE_MS)
    && (forall r | r in w.hiddenUntil && r !in w.released :: 0 <= w.hiddenUntil[r] <= w.clock + LEASE_MS)
    && (w.leases.sweep.Some? ==> forall i | 0 <= i < |w.leases.sweep.value.calls| :: CallOk(w, i))
    && w.released <= w.hiddenUntil.Keys
    && (forall r | r in w.asked :: r in w.hiddenUntil && r !in w.inTransit)
    && WellFormed(w.leases)
    && (w.leases.sweep.Some? ==> BatchesApart(BatchesOf(w.leases.sweep.value)))
  }

  lemma ArriveOk(w: World, r: Receipt)
    requires WorldOk(w)
    ensures WorldOk(Go(w, Arrive(r)))
  {
    var t := Go(w, Arrive(r));
    if t != w && t.leases.sweep.Some? {
      forall i | 0 <= i < |t.leases.sweep.value.calls| ensures CallOk(t, i) {
        assert CallOk(w, i);
      }
    }
  }

  lemma SweepOk(w: World, waits: seq<nat>, ms: nat)
    requires WorldOk(w)
    ensures WorldOk(Go(w, SweepStart(waits, ms)))
  {
    var t := Go(w, SweepStart(waits, ms));
    if t != w {
      forall r | r in t.leases.receipts ensures LeaseOk(t, r) {
        assert LeaseOk(w, r);
      }
      SweepBatches(w, waits);
      forall i | 0 <= i < |t.leases.sweep.value.calls| ensures CallOk(t, i) {
        SweepCallOk(w, waits, ms, i);
      }
      hide AfterRenew, CallOk, LeaseOk, BatchesApart;
    }
  }

  lemma SweepBatches(w: World, waits: seq<nat>)
    requires WorldOk(w) && w.leases.sweep.None?
    ensures var sweep := AfterRenew(w.leases, w.clock, waits).sweep;
            && sweep.Some? && BatchesApart(BatchesOf(sweep.value))
            && BatchesOf(sweep.value) == Batches(Live(w.leases.receipts, w.leases.order, w.clock))
  {
    var items := Live(w.leases.receipts, w.leases.order, w.clock);
    LiveExact(w.leases.receipts, w.leases.order, w.clock);
    SweepApart(items);
    assert BatchesOf(AfterRenew(w.leases, w.clock, waits).sweep.value) == Batches(items);
    hide BatchesApart, Live, Batches;
  }

  lemma SweepCallOk(w: World, waits: seq<nat>, ms: nat, i: nat)
    requires WorldOk(w) && Go(w, SweepStart(waits, ms)) != w
    requires i < |Go(w, SweepStart(waits, ms)).leases.sweep.value.calls|
    ensures CallOk(Go(w, SweepStart(waits, ms)), i)
  {
    var t := Go(w, SweepStart(waits, ms));
    SweepBatches(w, waits);
    var call := t.leases.sweep.value.calls[i];
    assert BatchesOf(t.leases.sweep.value)[i] == call.batch;
    hide Live, Batches, BatchesApart;
    forall x | x in call.batch ensures ItemOk(t, i, call, x) {
      SweptIsLive(w.leases, w.clock, i, x);
      assert LeaseOk(w, x.receipt);
    }
  }

  lemma SweptIsLive(s: Leases, now: int, i: nat, x: Item)
    requires WellFormed(s) && i < |Batches(Live(s.receipts, s.order, now))|
    requires x in Batches(Live(s.receipts, s.order, now))[i]
    ensures LiveItem(s.receipts, now, x)
  {
    LiveExact(s.receipts, s.order, now);
    BatchesCover(Live(s.receipts, s.order, now));
    InFlatten(Batches(Live(s.receipts, s.order, now)), i, x);
  }

  lemma ApplyOk(w: World, i: nat, r: Receipt)
    requires WorldOk(w)
    ensures WorldOk(Go(w, Apply(i, r)))
  {
    var t := Go(w, Apply(i, r));
    if t != w {
      if t.leases.sweep.Some? {
        forall k | 0 <= k < |t.leases.sweep.value.calls| ensures CallOk(t, k) {
          assert CallOk(w, k);
        }
      }
      forall q | q in t.leases.receipts ensures LeaseOk(t, q) {
        assert LeaseOk(w, q);
      }
    }
  }

  lemma ReplyOk(w: World, i: nat, confirmed: Option<set<Receipt>>)
    requires WorldOk(w)
    ensures WorldOk(Go(w, Reply(i, confirmed)))
  {
    var t := Go(w, Reply(i, confirmed));
    if t != w {
      var call := w.leases.sweep.value.calls[i];
      assert CallOk(w, i);
      forall r | r in t.leases.receipts ensures LeaseOk(t, r) {
        assert LeaseOk(w, r);
        RenewedExact(w.leases.receipts, call.batch, call.startedAt, confirmed, r);
      }
      assert BatchesOf(t.leases.sweep.value) == BatchesOf(w.leases.sweep.value);
      forall k | 0 <= k < |t.leases.sweep.value.calls| ensures CallOk(t, k) {
        ReplyCallOk(w, i, confirmed, k);
      }
    }
  }

  lemma OtherCall(sweep: Sweep, i: nat, k: nat, x: Item)
    requires BatchesApart(BatchesOf(sweep)) && i < |sweep.calls| && k < |sweep.calls| && i != k
    requires x in sweep.calls[k].batch
    ensures forall y | y in sweep.calls[i].batch :: y.receipt != x.receipt
  {
    assert BatchesOf(sweep)[i] == sweep.calls[i].batch && BatchesOf(sweep)[k] == sweep.calls[k].batch;
  }

  lemma ReplyCallOk(w: World, i: nat, confirmed: Option<set<Receipt>>, k: nat)
    requires WorldOk(w) && Awaits(w.leases, i) && k < |w.leases.sweep.value.calls|
    requires Go(w, Reply(i, confirmed)) == w.(leases := AfterAnswer(w.leases, i, confirmed))
    ensures CallOk(Go(w, Reply(i, confirmed)), k)
  {
    var t := Go(w, Reply(i, confirmed));
    var call := w.leases.sweep.value.calls[i];
    assert CallOk(w, k) && CallOk(w, i);
    forall x | x in w.leases.sweep.value.calls[k].batch ensures ItemOk(t, k, t.leases.sweep.value.calls[k], x) {
      assert ItemOk(w, k, w.leases.sweep.value.calls[k], x);
      if k != i {
        OtherCall(w.leases.sweep.value, i, k, x);
      }
      if x.receipt in w.leases.receipts {
        RenewedExact(w.leases.receipts, call.batch, call.startedAt, confirmed, x.receipt);
      }
    }
  }

  lemma WaitOk(w: World, ms: nat)
    requires WorldOk(w)
    ensures WorldOk(Go(w, Wait(ms)))
  {
    var t := Go(w, Wait(ms));
    forall r | r in t.leases.receipts ensures LeaseOk(t, r) {
      assert LeaseOk(w, r);
    }
    if t.leases.sweep.Some? {
      forall i | 0 <= i < |t.leases.sweep.value.calls| ensures CallOk(t, i) {
        assert CallOk(w, i);
      }
    }
  }

  lemma HideOk(w: World, r: Receipt)
    requires WorldOk(w)
    ensures WorldOk(Go(w, Hide(r)))
  {
    var t := Go(w, Hide(r));
    forall r | r in t.leases.receipts ensures LeaseOk(t, r) {
      assert LeaseOk(w, r);
    }
    if t.leases.sweep.Some? {
      forall i | 0 <= i < |t.leases.sweep.value.calls| ensures CallOk(t, i) {
        assert CallOk(w, i);
      }
    }
  }

  lemma DoneOk(w: World)
    requires WorldOk(w)
    ensures WorldOk(Go(w, SweepDone))
  {
    var t := Go(w, SweepDone);
    forall r | r in t.leases.receipts ensures LeaseOk(t, r) {
      assert LeaseOk(w, r);
    }
    if t.leases.sweep.Some? {
      assert t == w;
    }
  }

  /** The worker gives a receipt up, and may then change when SQS shows its message again. */
  lemma GiveUpOk(w: World, m: Move)
    requires WorldOk(w) && (m.GiveUp? || m.Rehide?)
    ensures WorldOk(Go(w, m))
  {
    var t := Go(w, m);
    if m.GiveUp? && t != w { WithoutDistinct(w.leases.order, m.receipt); }
    forall r | r in t.leases.receipts ensures LeaseOk(t, r) {
      assert LeaseOk(w, r);
    }
    if t.leases.sweep.Some? {
      forall i | 0 <= i < |t.leases.sweep.value.calls| ensures CallOk(t, i) {
        assert CallOk(w, i);
      }
    }
  }

  lemma {:induction false} MovesOk(moves: seq<Move>)
    ensures WorldOk(RunMoves(moves))
  {
    if moves != [] {
      var w := RunMoves(moves[..|moves| - 1]);
      MovesOk(moves[..|moves| - 1]);
      match moves[|moves| - 1] {
        case Arrive(r) => ArriveOk(w, r);
        case SweepStart(waits, ms) => SweepOk(w, waits, ms);
        case Apply(i, r) => ApplyOk(w, i, r);
        case Reply(i, confirmed) => ReplyOk(w, i, confirmed);
        case Wait(ms) => WaitOk(w, ms);
        case Hide(r) => HideOk(w, r);
        case SweepDone => DoneOk(w);
        case m => GiveUpOk(w, m);
      }
    }
  }

  /** Over every interleaving: a receipt the worker takes for current is still hidden by SQS. */
  lemma CurrentIsHidden(moves: seq<Move>, r: Receipt)
    requires HoldsLease(RunMoves(moves).leases, r, RunMoves(moves).clock)
    ensures var w := RunMoves(moves); r in w.hiddenUntil && w.hiddenUntil[r] > w.clock
  {
    MovesOk(moves);
    assert LeaseOk(RunMoves(moves), r);
  }

  /** A confirmed renewal never shortens a lease, and an unconfirmed or failed one ends it. */
  lemma ConfirmedNeverShortens(moves: seq<Move>, i: nat, confirmed: Option<set<Receipt>>, r: Receipt)
    requires Awaits(RunMoves(moves).leases, i) && r in RunMoves(moves).leases.receipts
    ensures var s := RunMoves(moves).leases;
            var t := AfterAnswer(s, i, confirmed);
            var asked := Item(r, s.receipts[r].token) in s.sweep.value.calls[i].batch;
            && (asked && confirmed.Some? && r in confirmed.value ==> t.receipts[r].expiresAt >= s.receipts[r].expiresAt)
            && (asked && !(confirmed.Some? && r in confirmed.value) ==> !HoldsLease(t, r, RunMoves(moves).clock))
            && (!asked ==> t.receipts[r] == s.receipts[r])
  {
    MovesOk(moves);
    var w := RunMoves(moves);
    var call := w.leases.sweep.value.calls[i];
    assert CallOk(w, i);
    RenewedExact(w.leases.receipts, call.batch, call.startedAt, confirmed, r);
    if Item(r, w.leases.receipts[r].token) in call.batch {
      assert ItemOk(w, i, call, Item(r, w.leases.receipts[r].token));
    }
  }

  // ---- a tracked receipt is current for 25 seconds ----

  /** The worker keeps `r`, and every answer to a renewal of `r` confirms it. */
  ghost predicate Kept(w: World, m: Move, r: Receipt) {
    && m != GiveUp(r)
    && (m.Reply? && Awaits(w.leases, m.call) && Asks(w.leases.sweep.value.calls[m.call], r) ==>
          m.confirmed.Some? && r in m.confirmed.value)
  }

  ghost predicate Asks(call: Call, r: Receipt) {
    exists x :: x in call.batch && x.receipt == r
  }

  ghost predicate KeptThroughout(moves: seq<Move>, r: Receipt, later: seq<Move>) {
    forall n | 0 <= n < |later| :: Kept(RunMoves(moves + later[..n]), later[n], r)
  }

  ghost predicate LeaseUntil(w: World, r: Receipt, until: int) {
    r in w.leases.receipts && w.leases.receipts[r].expiresAt >= until
  }

  lemma LeaseStays(w: World, m: Move, r: Receipt, until: int)
    requires WorldOk(w) && Kept(w, m, r) && LeaseUntil(w, r, until)
    ensures LeaseUntil(Go(w, m), r, until)
    ensures r in w.leases.receipts && r in Go(w, m).leases.receipts
    ensures !m.Reply? ==> Go(w, m).leases.receipts[r] == w.leases.receipts[r]
  {
    assert LeaseOk(w, r);
    if m.Reply? && Go(w, m) != w {
      var call := w.leases.sweep.value.calls[m.call];
      assert CallOk(w, m.call);
      RenewedExact(w.leases.receipts, call.batch, call.startedAt, m.confirmed, r);
      var x := Item(r, w.leases.receipts[r].token);
      if x in call.batch {
        assert ItemOk(w, m.call, call, x) && Asks(call, r);
      }
    }
    hide WorldOk, LeaseOk, CallOk, ItemOk, Renewed, AfterRenew;
  }

  lemma RunOneMore(moves: seq<Move>, later: seq<Move>)
    requires later != []
    ensures RunMoves(moves + later) == Go(RunMoves(moves + later[..|later| - 1]), later[|later| - 1])
  {
    hide Go;
    assert (moves + later)[..|moves + later| - 1] == moves + later[..|later| - 1];
  }

  lemma KeptFront(moves: seq<Move>, r: Receipt, later: seq<Move>)
    requires later != [] && KeptThroughout(moves, r, later)
    ensures var n := |later| - 1;
            KeptThroughout(moves, r, later[..n]) && Kept(RunMoves(moves + later[..n]), later[n], r)
    ensures RunMoves(moves + later) == Go(RunMoves(moves + later[..|later| - 1]), later[|later| - 1])
  {
    hide Go, Kept, RunMoves;
    var before := later[..|later| - 1];
    forall n | 0 <= n < |before| ensures Kept(RunMoves(moves + before[..n]), before[n], r) {
      assert before[..n] == later[..n];
    }
    RunOneMore(moves, later);
  }

  lemma {:induction false} LeaseLasts(moves: seq<Move>, r: Receipt, later: seq<Move>, until: int)
    requires LeaseUntil(RunMoves(moves), r, until) && KeptThroughout(moves, r, later)
    ensures LeaseUntil(RunMoves(moves + later), r, until)
    decreases |later|
  {
    hide *;
    if later == [] {
      assert moves + later == moves;
    } else {
      var before := later[..|later| - 1];
      KeptFront(moves, r, later);
      LeaseLasts(moves, r, before, until);
      MovesOk(moves + before);
      LeaseStays(RunMoves(moves + before), later[|later| - 1], r, until);
    }
  }

  /** No renewal call is answered. */
  predicate Silent(later: seq<Move>) {
    forall m | m in later :: !m.Reply?
  }

  lemma SilentFront(later: seq<Move>)
    requires later != [] && Silent(later)
    ensures Silent(later[..|later| - 1]) && !later[|later| - 1].Reply?
  {
  }

  lemma {:induction false} LeaseSame(moves: seq<Move>, r: Receipt, later: seq<Move>, until: int)
    requires LeaseUntil(RunMoves(moves), r, until) && KeptThroughout(moves, r, later) && Silent(later)
    ensures r in RunMoves(moves).leases.receipts && r in RunMoves(moves + later).leases.receipts
    ensures RunMoves(moves + later).leases.receipts[r] == RunMoves(moves).leases.receipts[r]
    decreases |later|
  {
    assert LeaseUntil(RunMoves(moves), r, until) ==> r in RunMoves(moves).leases.receipts;
    hide *;
    if later == [] {
      assert moves + later == moves;
    } else {
      var before := later[..|later| - 1];
      KeptFront(moves, r, later);
      SilentFront(later);
      LeaseSame(moves, r, before, until);
      LeaseLasts(moves, r, before, until);
      MovesOk(moves + before);
      LeaseStays(RunMoves(moves + before), later[|later| - 1], r, until);
    }
  }

  /** From the arrival of its response a receipt is current for 25 seconds, unless it is given up or a renewal of it
      is not confirmed; and without an answer to a renewal for no longer than that. */
  lemma TrackedIsCurrent(moves: seq<Move>, r: Receipt, later: seq<Move>)
    requires Within(RunMoves(moves), r) && KeptThroughout(moves + [Arrive(r)], r, later)
    ensures var since := RunMoves(moves).clock; var w := RunMoves(moves + [Arrive(r)] + later);
            && (w.clock < since + 25_000 ==> HoldsLease(w.leases, r, w.clock))
            && (Silent(later) && HoldsLease(w.leases, r, w.clock) ==> w.clock < since + 25_000)
  {
    var w := RunMoves(moves);
    assert (moves + [Arrive(r)])[..|moves|] == moves;
    assert RunMoves(moves + [Arrive(r)]) == Go(w, Arrive(r));
    LeaseLasts(moves + [Arrive(r)], r, later, w.clock + 30_000);
    if Silent(later) { LeaseSame(moves + [Arrive(r)], r, later, w.clock + 30_000); }
    hide Go, RunMoves, KeptThroughout;
  }
}
