/** Runs of the lease bookkeeping in which tracking, releasing, renewing and the answers to renewal
    calls interleave in any order. */
module LeaseRuns {
  import opened Common
  import opened Store
  import opened VisibilityLeases

  // ---- one sweep ----

  ghost predicate WellFormed(s: Leases) {
    Distinct(s.order) && forall r :: r in s.order <==> r in s.receipts
  }

  function Flatten(batches: seq<seq<Item>>): seq<Item> {
    if batches == [] then [] else batches[0] + Flatten(batches[1..])
  }

  lemma {:induction false} BatchesCover(items: seq<Item>)
    ensures Flatten(Batches(items)) == items
    ensures forall b | b in Batches(items) :: 1 <= |b| <= 10
    ensures forall i | 0 <= i < |Batches(items)| - 1 :: |Batches(items)[i]| == 10
  {
    if |items| > BATCH {
      BatchesCover(items[BATCH..]);
      assert Batches(items)[1..] == Batches(items[BATCH..]);
      assert items == items[..BATCH] + items[BATCH..];
    } else if items != [] {
      assert Batches(items)[1..] == [];
      assert items + Flatten([]) == items;
    }
  }

  ghost predicate LiveItem(receipts: map<Receipt, Entry>, now: int, x: Item) {
    x.receipt in receipts && receipts[x.receipt] == Entry(x.token, receipts[x.receipt].expiresAt) &&
    receipts[x.receipt].expiresAt > now
  }

  lemma {:induction false} LiveExact(receipts: map<Receipt, Entry>, order: seq<Receipt>, now: int)
    requires Distinct(order)
    ensures forall x :: x in Live(receipts, order, now) <==> x.receipt in order && LiveItem(receipts, now, x)
    ensures forall i, j | 0 <= i < j < |Live(receipts, order, now)| ::
              Live(receipts, order, now)[i].receipt != Live(receipts, order, now)[j].receipt
  {
    if order != [] {
      LiveExact(receipts, order[1..], now);
      assert order[0] !in order[1..];
      assert order == [order[0]] + order[1..];
    }
  }

  function BatchesOf(sweep: Sweep): seq<seq<Item>> {
    seq(|sweep.calls|, i requires 0 <= i < |sweep.calls| => sweep.calls[i].batch)
  }

  /** What an answer does to each lease: only an entry of the call itself changes, so an entry tracked
      anew since then is left alone. */
  lemma {:induction false} RenewedExact(receipts: map<Receipt, Entry>, batch: seq<Item>, startedAt: int,
                                        confirmed: Option<set<Receipt>>, r: Receipt)
    requires r in receipts
    ensures Renewed(receipts, batch, startedAt, confirmed)[r] ==
            if Item(r, receipts[r].token) in batch
            then Entry(receipts[r].token, if confirmed.Some? && r in confirmed.value then startedAt + LEASE_MS else 0)
            else receipts[r]
  {
    if batch != [] {
      RenewedExact(RenewOne(receipts, batch[0], startedAt, confirmed), batch[1..], startedAt, confirmed, r);
      assert Item(r, receipts[r].token) in batch <==>
               batch[0] == Item(r, receipts[r].token) || Item(r, receipts[r].token) in batch[1..];
    }
  }

  // ---- runs ----

  datatype Event =
    | Tracks(receipt: Receipt, now: int)
    | Renews(now: int, waits: seq<nat>)
    | Answers(call: nat, confirmed: Option<set<Receipt>>)
    | Settles
    | BeginsRelease(receipt: Receipt)
    | EndsRelease(index: nat)

  /** A call of release: `tracked` entries had been made when it began, and it waits for `awaited`. */
  datatype Release = Release(receipt: Receipt, tracked: nat, awaited: Option<nat>, done: bool)

  datatype Book = Book(leases: Leases, releases: seq<Release>)

  function Step(b: Book, e: Event): Book {
    match e
    case Tracks(r, now) => b.(leases := AfterTrack(b.leases, r, now))
    case Renews(now, waits) => b.(leases := AfterRenew(b.leases, now, waits))
    case Answers(i, confirmed) => if Awaits(b.leases, i) then b.(leases := AfterAnswer(b.leases, i, confirmed)) else b
    case Settles => b.(leases := AfterSettle(b.leases))
    case BeginsRelease(r) =>
      var awaited := if b.leases.sweep.Some? then Some(b.leases.sweep.value.id) else None;
      Book(AfterDrop(b.leases, r), b.releases + [Release(r, b.leases.nextToken, awaited, false)])
    case EndsRelease(k) =>
      if k < |b.releases| && Passed(b.leases, b.releases[k].awaited)
      then b.(releases := b.releases[k := b.releases[k].(done := true)])
      else b
  }

  /** The sweep a release waited for is no longer outstanding. */
  predicate Passed(s: Leases, awaited: Option<nat>) {
    awaited.None? || s.sweep.None? || s.sweep.value.id != awaited.value
  }

  function Run(events: seq<Event>): Book {
    if events == [] then Book(Fresh, []) else Step(Run(events[..|events| - 1]), events[|events| - 1])
  }

  /** `x` is an item of a renewal call of the outstanding sweep. */
  ghost predicate Renewing(s: Leases, x: Item) {
    s.sweep.Some? && exists i :: 0 <= i < |s.sweep.value.calls| && x in s.sweep.value.calls[i].batch
  }

  ghost predicate ReleaseOk(s: Leases, rel: Release) {
    && rel.tracked <= s.nextToken
    && (rel.awaited.Some? ==> rel.awaited.value < s.nextSweep)
    && (rel.receipt in s.receipts ==> s.receipts[rel.receipt].token >= rel.tracked)
    && (rel.done ==> Passed(s, rel.awaited))
    && (Passed(s, rel.awaited) ==> forall x | Renewing(s, x) && x.receipt == rel.receipt :: x.token >= rel.tracked)
  }

  ghost predicate BookOk(b: Book) {
    && WellFormed(b.leases)
    && (forall r | r in b.leases.receipts :: b.leases.receipts[r].token < b.leases.nextToken)
    && (forall x | Renewing(b.leases, x) :: x.token < b.leases.nextToken)
    && (b.leases.sweep.Some? ==> b.leases.sweep.value.id < b.leases.nextSweep)
    && (forall k | 0 <= k < |b.releases| :: ReleaseOk(b.leases, b.releases[k]))
  }

  /** The items of a new sweep are entries of the Map; those of an answered one are the same as before. */
  lemma RenewingAfter(b: Book, e: Event, x: Item)
    requires WellFormed(b.leases) && Renewing(Step(b, e).leases, x)
    ensures Renewing(b.leases, x) ||
            (e.Renews? && b.leases.sweep.None? && x.receipt in b.leases.receipts
             && b.leases.receipts[x.receipt].token == x.token)
  {
    var s, t := b.leases, Step(b, e).leases;
    var i :| 0 <= i < |t.sweep.value.calls| && x in t.sweep.value.calls[i].batch;
    if e.Renews? && s.sweep.None? {
      var items := Live(s.receipts, s.order, e.now);
      LiveExact(s.receipts, s.order, e.now);
      BatchesCover(items);
      InFlatten(Batches(items), i, x);
    } else {
      assert x in s.sweep.value.calls[i].batch;
    }
  }

  lemma {:induction false} InFlatten(batches: seq<seq<Item>>, i: nat, x: Item)
    requires i < |batches| && x in batches[i]
    ensures x in Flatten(batches)
  {
    if i > 0 {
      InFlatten(batches[1..], i - 1, x);
    }
  }

  /** No receipt is in two of the batches. */
  ghost predicate BatchesApart(batches: seq<seq<Item>>) {
    forall i, j, x, y | 0 <= i < j < |batches| && x in batches[i] && y in batches[j] :: x.receipt != y.receipt
  }

  lemma {:induction false} SweepApart(items: seq<Item>)
    requires forall i, j | 0 <= i < j < |items| :: items[i].receipt != items[j].receipt
    ensures BatchesApart(Batches(items))
  {
    if |items| > BATCH {
      var rest := Batches(items[BATCH..]);
      SweepApart(items[BATCH..]);
      BatchesCover(items[BATCH..]);
      forall j, x: Item, y: Item | 0 <= j < |rest| && x in items[..BATCH] && y in rest[j]
        ensures x.receipt != y.receipt
      {
        InFlatten(rest, j, y);
      }
      assert Batches(items) == [items[..BATCH]] + rest;
    }
  }

  lemma StepOk(b: Book, e: Event)
    requires BookOk(b)
    ensures BookOk(Step(b, e))
  {
    var s, t := b.leases, Step(b, e).leases;
    forall x | Renewing(t, x) ensures x.token < t.nextToken {
      RenewingAfter(b, e, x);
    }
    WellFormedAfter(b, e);
    forall r | r in t.receipts ensures t.receipts[r].token < t.nextToken {
      TokenAfter(b, e, r);
    }
    forall k | 0 <= k < |Step(b, e).releases| ensures ReleaseOk(t, Step(b, e).releases[k]) {
      ReleaseAfter(b, e, k);
    }
  }

  lemma WellFormedAfter(b: Book, e: Event)
    requires WellFormed(b.leases)
    ensures WellFormed(Step(b, e).leases)
  {
    if e.BeginsRelease? { WithoutDistinct(b.leases.order, e.receipt); }
  }

  lemma TokenAfter(b: Book, e: Event, r: Receipt)
    requires r in Step(b, e).leases.receipts
    ensures e.Tracks? && e.receipt == r ==> Step(b, e).leases.receipts[r].token == b.leases.nextToken
    ensures !(e.Tracks? && e.receipt == r) ==>
              r in b.leases.receipts && Step(b, e).leases.receipts[r].token == b.leases.receipts[r].token
  {
    if e.Answers? && Awaits(b.leases, e.call) {
      var call := b.leases.sweep.value.calls[e.call];
      RenewedExact(b.leases.receipts, call.batch, call.startedAt, e.confirmed, r);
    }
  }

  lemma ReleaseAfter(b: Book, e: Event, k: nat)
    requires BookOk(b) && k < |Step(b, e).releases|
    ensures ReleaseOk(Step(b, e).leases, Step(b, e).releases[k])
  {
    var s, t := b.leases, Step(b, e).leases;
    var rel := Step(b, e).releases[k];
    if rel.receipt in t.receipts { TokenAfter(b, e, rel.receipt); }
    forall x | Passed(t, rel.awaited) && Renewing(t, x) && x.receipt == rel.receipt ensures x.token >= rel.tracked {
      RenewingAfter(b, e, x);
    }
    if k < |b.releases| { assert ReleaseOk(s, b.releases[k]); }
  }

  lemma {:induction false} RunOk(events: seq<Event>)
    ensures BookOk(Run(events))
  {
    if events != [] {
      RunOk(events[..|events| - 1]);
      StepOk(Run(events[..|events| - 1]), events[|events| - 1]);
    }
  }

  /** A new sweep asks for every live receipt exactly once, in batches of ten but for a last one of one to ten; while
      a sweep is outstanding no other one starts. */
  lemma SweepCovers(events: seq<Event>, now: int, waits: seq<nat>)
    ensures var s := Run(events).leases; var t := Run(events + [Renews(now, waits)]).leases;
            && t.receipts == s.receipts && (s.sweep.Some? ==> t == s)
            && (s.sweep.None? ==>
                  && t.sweep.Some?
                  && var calls := t.sweep.value.calls; var batches := BatchesOf(t.sweep.value);
                  && (forall b | b in batches :: 1 <= |b| <= 10)
                  && (forall i | 0 <= i < |batches| - 1 :: |batches[i]| == 10)
                  && (forall x :: x in Flatten(batches) <==>
                        x.receipt in s.receipts && s.receipts[x.receipt].token == x.token &&
                        s.receipts[x.receipt].expiresAt > now)
                  && (forall i, j | 0 <= i < j < |Flatten(batches)| ::
                        Flatten(batches)[i].receipt != Flatten(batches)[j].receipt)
                  && (forall i | 0 <= i < |calls| :: !calls[i].answered)
                  && (forall i | 0 <= i < |calls| && i < |waits| :: calls[i].startedAt == now + waits[i]))
  {
    RunOk(events);
    var s, e := Run(events).leases, Renews(now, waits);
    assert (events + [e])[..|events|] == events;
    assert Run(events + [e]) == Step(Run(events), e);
    hide Run;
    if s.sweep.None? {
      var items := Live(s.receipts, s.order, now);
      LiveExact(s.receipts, s.order, now);
      BatchesCover(items);
      assert BatchesOf(AfterRenew(s, now, waits).sweep.value) == Batches(items);
      hide Live, Batches, Flatten, BookOk;
    }
  }

  /** Once release(r) has completed, no renewal call that is outstanding then or later includes r,
      unless r was tracked again after the release began. */
  lemma ReleasedIsNotRenewed(events: seq<Event>, r: Receipt, later: seq<Event>, x: Item)
    requires forall e | e in later && e.Tracks? :: e.receipt != r
    requires var k := |Run(events).releases|;
             k < |Run(events + [BeginsRelease(r)] + later).releases|
                 && Run(events + [BeginsRelease(r)] + later).releases[k].done
    ensures r !in Run(events + [BeginsRelease(r)] + later).leases.receipts
    ensures Renewing(Run(events + [BeginsRelease(r)] + later).leases, x) ==> x.receipt != r
  {
    RunOk(events + [BeginsRelease(r)] + later);
    OldTokens(events, r, later, x);
    assert ReleaseOk(Run(events + [BeginsRelease(r)] + later).leases,
                     Run(events + [BeginsRelease(r)] + later).releases[|Run(events).releases|]);
  }

  /** Release `k` is one of `r`, and the entries of `r` (in the Map or in the call item `x`) are older. */
  ghost predicate OldAt(b: Book, k: nat, r: Receipt, tracked: nat, x: Item) {
    && k < |b.releases| && b.releases[k].receipt == r && b.releases[k].tracked == tracked
    && (r in b.leases.receipts ==> b.leases.receipts[r].token < tracked)
    && (Renewing(b.leases, x) && x.receipt == r ==> x.token < tracked)
  }

  lemma OldBegin(b: Book, r: Receipt, x: Item)
    requires BookOk(b)
    ensures OldAt(Step(b, BeginsRelease(r)), |b.releases|, r, b.leases.nextToken, x)
  {
    if Renewing(Step(b, BeginsRelease(r)).leases, x) { RenewingAfter(b, BeginsRelease(r), x); }
  }

  lemma OldStep(b: Book, e: Event, k: nat, r: Receipt, tracked: nat, x: Item)
    requires BookOk(b) && OldAt(b, k, r, tracked, x) && !(e.Tracks? && e.receipt == r)
    ensures OldAt(Step(b, e), k, r, tracked, x)
  {
    if r in Step(b, e).leases.receipts { TokenAfter(b, e, r); }
    if Renewing(Step(b, e).leases, x) { RenewingAfter(b, e, x); }
  }

  /** Without tracking r again, all entries of r are older than its release. */
  lemma {:induction false} OldTokens(events: seq<Event>, r: Receipt, later: seq<Event>, x: Item)
    requires forall e | e in later && e.Tracks? :: e.receipt != r
    ensures OldAt(Run(events + [BeginsRelease(r)] + later), |Run(events).releases|, r, Run(events).leases.nextToken, x)
  {
    hide Step, OldAt, BookOk;
    var all := events + [BeginsRelease(r)] + later;
    if later == [] {
      assert all[..|all| - 1] == events;
      RunOk(events);
      OldBegin(Run(events), r, x);
    } else {
      var before := later[..|later| - 1];
      assert all[..|all| - 1] == events + [BeginsRelease(r)] + before;
      assert later[|later| - 1] in later;
      OldTokens(events, r, before, x);
      RunOk(events + [BeginsRelease(r)] + before);
      OldStep(Run(events + [BeginsRelease(r)] + before), later[|later| - 1], |Run(events).releases|, r,
              Run(events).leases.nextToken, x);
    }
  }

  // ---- when a sweep is over ----

  /** Step `n` of the run answered call `i` of the sweep. */
  predicate AnsweredAt(events: seq<Event>, sweep: nat, i: nat, n: nat) {
    n < |events| && events[n].Answers? && events[n].call == i &&
    var s := Run(events[..n]).leases;
    s.sweep.Some? && s.sweep.value.id == sweep && i < |s.sweep.value.calls|
  }

  ghost predicate WasAnswered(events: seq<Event>, sweep: nat, i: nat) {
    exists n: nat :: AnsweredAt(events, sweep, i, n)
  }

  lemma AnsweredToo(events: seq<Event>, sweep: nat, i: nat)
    requires events != []
    ensures var n := |events| - 1;
            WasAnswered(events, sweep, i) <==> WasAnswered(events[..n], sweep, i) || AnsweredAt(events, sweep, i, n)
  {
    var before := events[..|events| - 1];
    forall n: nat | n < |events| - 1 ensures AnsweredAt(before, sweep, i, n) <==> AnsweredAt(events, sweep, i, n) {
      assert before[..n] == events[..n];
    }
    assert forall n: nat | AnsweredAt(events, sweep, i, n) :: n < |events|;
    assert forall n: nat | AnsweredAt(before, sweep, i, n) :: n < |events| - 1;
    hide AnsweredAt;
  }

  /** Only sweeps that have begun are answered. */
  lemma {:induction false} AnsweredBegan(events: seq<Event>, sweep: nat, i: nat)
    requires WasAnswered(events, sweep, i)
    ensures sweep < Run(events).leases.nextSweep
  {
    if events != [] {
      var before := events[..|events| - 1];
      AnsweredToo(events, sweep, i);
      RunOk(before);
      hide WasAnswered;
      if WasAnswered(before, sweep, i) {
        AnsweredBegan(before, sweep, i);
      }
    }
  }

  /** The calls of the outstanding sweep that count as answered are those that were. */
  lemma {:induction false} AnsweredIff(events: seq<Event>, i: nat)
    requires Run(events).leases.sweep.Some? && i < |Run(events).leases.sweep.value.calls|
    ensures var sweep := Run(events).leases.sweep.value;
            sweep.calls[i].answered <==> WasAnswered(events, sweep.id, i)
  {
    if events != [] {
      var before, e := events[..|events| - 1], events[|events| - 1];
      var s, t := Run(before).leases, Run(events).leases;
      AnsweredToo(events, t.sweep.value.id, i);
      hide WasAnswered, Live, Batches, Renewed;
      if s.sweep.Some? {
        AnsweredIff(before, i);
      } else if WasAnswered(before, t.sweep.value.id, i) {
        AnsweredBegan(before, t.sweep.value.id, i);
      }
    }
  }

  /** The outstanding sweep is over if and only if all its calls have been answered; nothing but settling ends it, and
      a second answer to a call changes nothing. */
  lemma SweepSettlesIff(events: seq<Event>, e: Event)
    requires Run(events).leases.sweep.Some?
    ensures var s := Run(events).leases; var sweep := s.sweep.value; var t := Run(events + [e]).leases;
            && (e.Settles? ==> t == s.(sweep := t.sweep) && (t.sweep.Some? ==> t == s))
            && (e.Settles? ==>
                  (t.sweep.None? <==> forall i: nat | i < |sweep.calls| :: WasAnswered(events, sweep.id, i)))
            && (!e.Settles? ==> t.sweep.Some? && t.sweep.value.id == sweep.id && |t.sweep.value.calls| == |sweep.calls|)
            && (e.Answers? && WasAnswered(events, sweep.id, e.call) && e.call < |sweep.calls| ==> t == s)
  {
    forall i: nat | i < |Run(events).leases.sweep.value.calls|
      ensures Run(events).leases.sweep.value.calls[i].answered <==>
              WasAnswered(events, Run(events).leases.sweep.value.id, i)
    {
      AnsweredIff(events, i);
    }
    assert (events + [e])[..|events|] == events;
    assert Run(events + [e]) == Step(Run(events), e);
    hide Run, WasAnswered, Renewed;
  }

  /** A release completes if and only if the sweep that was outstanding when it began is over. */
  lemma ReleaseEndsIff(events: seq<Event>, k: nat)
    requires k < |Run(events).releases|
    ensures var b, t := Run(events), Run(events + [EndsRelease(k)]); var rel := b.releases[k];
            && t.leases == b.leases && k < |t.releases|
            && (t.releases[k].done <==> rel.done || rel.awaited.None? || b.leases.sweep.None? ||
                                        b.leases.sweep.value.id != rel.awaited.value)
  {
    assert (events + [EndsRelease(k)])[..|events|] == events;
    assert Run(events + [EndsRelease(k)]) == Step(Run(events), EndsRelease(k));
    RunOk(events);
    assert ReleaseOk(Run(events).leases, Run(events).releases[k]);
    hide Run;
  }
}
