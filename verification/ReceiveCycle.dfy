/** The receive cycle of packages/worker/src/index.ts: ten receives are raced, their messages handled
    one after the other, and what exceeds a tenant's turns is deferred. Whenever the cycle awaits
    something, receives may be answered, acknowledgements may begin and end, the leases may be renewed
    or lost, and time may pass. */
module ReceiveCycle {
  import opened Common
  import opened Store
  import opened VisibilityLeases
  import opened TenantTurns
  import opened MessageBatch
  import opened QueueConfirmations

  /** `id` tells the received messages of a cycle apart; `tenant` is None when the body does not parse. */
  datatype Message = Message(id: nat, receipt: Option<Receipt>, tenant: Option<TenantId>)

  /** What handleMessage does: it returns an acknowledgement, returns without one, or throws. */
  datatype Handling = Acknowledges | Keeps | Throws

  /** The turn of a message: the leases and the clock that it met, and how its handling went. */
  datatype Turn = Turn(message: Message, leases: Leases, now: int, handling: Handling)

  /** The messages of a cycle by what became of them, each list in the order of processing. */
  datatype Split = Split(handled: seq<Message>, skipped: seq<Message>, deferred: seq<Message>,
                         acknowledged: seq<Message>)

  /** Where an arrived message is. `Loose` messages have no lease any more. */
  datatype Stage = Buffered | InHand | Loose | Deferred | Scheduled(task: TaskId)

  type Stages = map<Message, Stage>
  type Statuses = map<TaskId, MessageBatch.Status>

  const TURNS := 10
  const CONFIRMATIONS := 10
  const DEFERRAL := 10

  const Nothing := Split([], [], [], [])

  // ---- what becomes of the messages ----

  /** How many of the messages belong to `t`. */
  function OfTenant(messages: seq<Message>, t: TenantId): nat {
    if messages == [] then 0
    else OfTenant(messages[..|messages| - 1], t) + if messages[|messages| - 1].tenant == Some(t) then 1 else 0
  }

  lemma OfTenantAppend(messages: seq<Message>, m: Message, t: TenantId)
    ensures OfTenant(messages + [m], t) == OfTenant(messages, t) + if m.tenant == Some(t) then 1 else 0
  {
    assert (messages + [m])[..|messages|] == messages;
  }

  /** Less than the margin was left of the message's lease, or nothing. */
  predicate Uncertain(a: Turn) {
    a.message.receipt.Some? && !HoldsLease(a.leases, a.message.receipt.value, a.now)
  }

  /** handleMessage returned an acknowledgement. */
  predicate Acknowledged(a: Turn) {
    a.message.receipt.Some? && a.handling.Acknowledges?
  }

  /** What becomes of one more message: uncertain ownership skips it, a tenant without turns defers it. */
  function Place(s: Split, a: Turn): Split {
    if Uncertain(a) then s.(skipped := s.skipped + [a.message])
    else if a.message.tenant.Some? && OfTenant(s.handled, a.message.tenant.value) >= TURNS
    then s.(deferred := s.deferred + [a.message])
    else s.(handled := s.handled + [a.message],
            acknowledged := if Acknowledged(a) then s.acknowledged + [a.message] else s.acknowledged)
  }

  function PlaceAll(log: seq<Turn>): Split {
    if log == [] then Nothing else Place(PlaceAll(log[..|log| - 1]), log[|log| - 1])
  }

  lemma PlaceAppend(log: seq<Turn>, a: Turn)
    ensures PlaceAll(log + [a]) == Place(PlaceAll(log), a)
  {
    assert (log + [a])[..|log|] == log;
  }

  function MessagesOf(log: seq<Turn>): seq<Message> {
    seq(|log|, i requires 0 <= i < |log| => log[i].message)
  }

  function Receipts(messages: seq<Message>): set<Receipt> {
    set m | m in messages && m.receipt.Some? :: m.receipt.value
  }

  function ReceiptList(messages: seq<Message>): (list: seq<Receipt>)
    ensures forall r :: r in list <==> r in Receipts(messages)
  {
    if messages == [] then []
    else
      assert messages == [messages[0]] + messages[1..];
      (if messages[0].receipt.Some? then [messages[0].receipt.value] else []) + ReceiptList(messages[1..])
  }

  // ---- who has a lease ----

  predicate Has(m: Message, r: Receipt) { m.receipt == Some(r) }

  /** The acknowledgement, whose first statement gives up the lease, has not begun. */
  predicate NotBegun(status: Statuses, task: TaskId) {
    task in status ==> status[task].Waiting? || status[task].Queued?
  }

  predicate Leased(stage: Stage, status: Statuses) {
    stage.Buffered? || stage.InHand? || stage.Deferred? || (stage.Scheduled? && NotBegun(status, stage.task))
  }

  ghost predicate Unseen(stage: Stages, r: Receipt) {
    forall m | m in stage :: !Has(m, r)
  }

  ghost predicate Owed(stage: Stages, status: Statuses, r: Receipt) {
    exists m :: m in stage && Has(m, r) && Leased(stage[m], status)
  }

  /** No two of the messages have the same receipt. */
  ghost predicate Apart(messages: set<Message>) {
    forall m, n | m in messages && n in messages && m.receipt.Some? && m.receipt == n.receipt :: m == n
  }

  /** Of the arrived messages, only those that wait for their turn, are in hand, wait for their
      acknowledgement or are deferred are tracked, and those are, unless another message with the same
      receipt gave it up; of the other receipts those of before the cycle. */
  ghost predicate LeasesOk(keys: set<Receipt>, start: set<Receipt>, stage: Stages,
                           status: Statuses)
  {
    && (forall r | r in keys :: (r in start && Unseen(stage, r)) || Owed(stage, status, r))
    && (forall r | r in start && Unseen(stage, r) :: r in keys)
    && (Apart(stage.Keys) ==>
          forall m | m in stage && m.receipt.Some? && Leased(stage[m], status) :: m.receipt.value in keys)
  }

  function ReceiptOf(m: Message): set<Receipt> {
    if m.receipt.Some? then {m.receipt.value} else {}
  }

  /** A message gives its lease up. */
  lemma ReleaseOk(keys: set<Receipt>, start: set<Receipt>, stage: Stages, status: Statuses,
                  m: Message)
    requires LeasesOk(keys, start, stage, status) && m in stage
    ensures LeasesOk(keys - ReceiptOf(m), start, stage[m := Loose], status)
  {
    var t := stage[m := Loose];
    assert t.Keys == stage.Keys;
    forall r ensures Unseen(t, r) <==> Unseen(stage, r) {
      assert forall n :: n in t <==> n in stage;
    }
    forall r | r !in ReceiptOf(m) && Owed(stage, status, r) ensures Owed(t, status, r) {
      var n :| n in stage && Has(n, r) && Leased(stage[n], status);
      assert n in t && n != m;
    }
  }

  /** A message that keeps its lease goes on. */
  lemma MoveOk(keys: set<Receipt>, start: set<Receipt>, stage: Stages, status: Statuses,
               m: Message, to: Stage)
    requires LeasesOk(keys, start, stage, status) && m in stage
    requires Leased(stage[m], status) && Leased(to, status)
    ensures LeasesOk(keys, start, stage[m := to], status)
  {
    var t := stage[m := to];
    assert t.Keys == stage.Keys;
    forall r ensures (Unseen(t, r) <==> Unseen(stage, r)) && (Owed(stage, status, r) ==> Owed(t, status, r)) {
      assert forall n :: n in t <==> n in stage;
      if Owed(stage, status, r) {
        var n :| n in stage && Has(n, r) && Leased(stage[n], status);
        assert n in t && Leased(t[n], status);
      }
    }
  }

  function Joined(stage: Stages, arriving: seq<Message>): Stages {
    stage + map m | m in arriving :: Buffered
  }

  lemma ArriveOk(keys: set<Receipt>, start: set<Receipt>, stage: Stages, status: Statuses,
                 arriving: seq<Message>)
    requires LeasesOk(keys, start, stage, status) && forall m | m in arriving :: m !in stage
    ensures LeasesOk(keys + Receipts(arriving), start, Joined(stage, arriving), status)
  {
    var t := Joined(stage, arriving);
    forall r | r in Receipts(arriving) ensures Owed(t, status, r) && !Unseen(t, r) {
      var m :| m in arriving && m.receipt.Some? && m.receipt.value == r;
      assert m in t && Has(m, r);
    }
    forall r ensures Owed(stage, status, r) ==> Owed(t, status, r) {
      if Owed(stage, status, r) {
        var n :| n in stage && Has(n, r) && Leased(stage[n], status);
        assert n in t && t[n] == stage[n];
      }
    }
    forall r | r !in Receipts(arriving) ensures Unseen(t, r) <==> Unseen(stage, r) {
      assert forall m | m in arriving :: !Has(m, r);
    }
    if Apart(t.Keys) {
      assert Apart(stage.Keys);
    }
  }

  /** Other steps of the acknowledgements. */
  lemma StatusOk(keys: set<Receipt>, start: set<Receipt>, stage: Stages, status: Statuses,
                 after: Statuses)
    requires LeasesOk(keys, start, stage, status)
    requires forall task :: NotBegun(status, task) == NotBegun(after, task)
    ensures LeasesOk(keys, start, stage, after)
  {
    forall m | m in stage ensures Leased(stage[m], status) == Leased(stage[m], after) {
    }
    hide NotBegun, Leased;
  }

  /** An acknowledgement begins by giving up the lease of its message. */
  lemma BeginOk(keys: set<Receipt>, start: set<Receipt>, stage: Stages, status: Statuses, after: Statuses, m: Message)
    requires LeasesOk(keys, start, stage, status) && m in stage && stage[m].Scheduled?
             && !NotBegun(after, stage[m].task)
    requires forall task | task != stage[m].task :: NotBegun(status, task) == NotBegun(after, task)
    requires forall n | n in stage && stage[n] == stage[m] :: n == m
    ensures LeasesOk(keys - ReceiptOf(m), start, stage, after)
  {
    forall n | n in stage && n != m ensures Leased(stage[n], status) == Leased(stage[n], after) {
    }
    assert !Leased(stage[m], after);
    forall r | r !in ReceiptOf(m) && Owed(stage, status, r) ensures Owed(stage, after, r) {
      var n :| n in stage && Has(n, r) && Leased(stage[n], status);
    }
    hide NotBegun, Leased;
  }

  // ---- the lists and the stages ----

  ghost predicate AcksOk(acks: seq<Message>, stage: Stages, status: Statuses) {
    && (forall i | 0 <= i < |acks| :: acks[i] in stage && stage[acks[i]] == Scheduled(i))
    && (forall m | m in stage && stage[m].Scheduled? :: stage[m].task < |acks| && acks[stage[m].task] == m)
    && (forall task | task in status :: task < |acks|)
  }

  ghost predicate DeferredOk(deferred: seq<Message>, stage: Stages) {
    forall m :: m in deferred <==> m in stage && stage[m] == Deferred
  }

  /** The messages of the cycle are different objects. */
  ghost predicate Different(batches: seq<seq<Message>>) {
    forall b, i, c, j | 0 <= b < |batches| && 0 <= i < |batches[b]| && 0 <= c < |batches| && 0 <= j < |batches[c]| &&
                        batches[b][i] == batches[c][j] :: b == c && i == j
  }

  ghost predicate Came(batches: seq<seq<Message>>, arrived: set<nat>, m: Message) {
    exists b :: b in arrived && b < |batches| && m in batches[b]
  }

  ghost predicate ArrivedOk(batches: seq<seq<Message>>, arrived: set<nat>, taken: seq<nat>, stage: Stages) {
    && (forall b | b in arrived :: b < |batches|)
    && (forall m :: m in stage <==> Came(batches, arrived, m))
    && (forall b, m | b in arrived && b !in taken && m in batches[b] :: stage[m] == Buffered)
    && (forall b | b in taken :: b in arrived)
    && Distinct(taken)
  }

  /** Nothing that was there has changed its stage. */
  ghost predicate Grown(before: Stages, after: Stages) {
    forall m | m in before :: m in after && after[m] == before[m]
  }

  /** The turn of the message is over. */
  predicate Over(stage: Stage) { !stage.Buffered? && !stage.InHand? }

  // ---- the cycle ----

  class Cycle {
    const leases: VisibilityLeases
    const turns: TenantTurns
    const confirmations: DeliveryConfirmations
    /** What each receive brings; a failed one brings no messages. */
    const batches: seq<seq<Message>>
    /** What was tracked before. */
    ghost const start: set<Receipt>
    var clock: int
    /** The receives that are answered, and those whose messages have been processed, in their order. */
    var arrived: set<nat>
    var taken: seq<nat>
    var handled: seq<Message>
    var skipped: seq<Message>
    var deferred: seq<Message>
    var acks: seq<Message>
    ghost var stage: Stages
    ghost var log: seq<Turn>

    constructor (leases: VisibilityLeases, batches: seq<seq<Message>>, clock: int)
      requires Different(batches)
      ensures this.leases == leases && this.batches == batches && start == leases.receipts.Keys
      ensures fresh(turns) && fresh(confirmations)
      ensures Valid() && AllAdmitted() && TurnsOk() && Fates() == PlaceAll(log) && taken == [] && log == []
    {
      this.leases, this.batches, this.clock := leases, batches, clock;
      turns := new TenantTurns.Make(TURNS);
      confirmations := new DeliveryConfirmations.Make(CONFIRMATIONS);
      arrived, taken := {}, [];
      handled, skipped, deferred, acks := [], [], [], [];
      start, stage, log := leases.receipts.Keys, map[], [];
      new;
      BeginsOk(CONFIRMATIONS);
    }

    /** What holds at every await. */
    ghost predicate Valid()
      reads this`arrived, this`taken, this`deferred, this`acks, this`stage, leases, confirmations
    {
      && ConfirmingOk(confirmations.State()) && confirmations.limit == 10
      && LeasesOk(leases.receipts.Keys, start, stage, confirmations.status)
      && AcksOk(acks, stage, confirmations.status)
      && DeferredOk(deferred, stage)
      && Different(batches) && ArrivedOk(batches, arrived, taken, stage)
    }

    /** No call of schedule is waiting. */
    ghost predicate AllAdmitted()
      reads this`acks, confirmations
    {
      forall task | 0 <= task < |acks| :: task in confirmations.status && !confirmations.status[task].Waiting?
    }

    function Fates(): Split
      reads this`handled, this`skipped, this`deferred, this`acks
    {
      Split(handled, skipped, deferred, acks)
    }

    /** Every turn that was taken was used for a handled message. */
    ghost predicate TurnsOk()
      reads this`handled, turns
    {
      && turns.Valid() && turns.limit == 10
      && forall t :: OfTenant(handled, t) == turns.Used(t)
    }

    /** What the other parts of the worker leave alone while the cycle awaits something. */
    twostate predicate Awaited()
      reads this, leases, confirmations
    {
      && Grown(old(stage), stage) && old(arrived) <= arrived && old(clock) <= clock
      && confirmations.pending <= old(confirmations.pending)
      && confirmations.status.Keys == old(confirmations.status.Keys)
      && (forall task | task in confirmations.status ::
            confirmations.status[task].Waiting? == old(confirmations.status)[task].Waiting?)
    }

    // ---- what happens at an await ----

    method TrackBatch(batch: seq<Message>)
      modifies leases
      ensures leases.receipts.Keys == old(leases.receipts.Keys) + Receipts(batch)
    {
      for k := 0 to |batch|
        invariant leases.receipts.Keys == old(leases.receipts.Keys) + Receipts(batch[..k])
      {
        ReceiptsAppend(batch[..k], batch[k]);
        assert batch[..k + 1] == batch[..k] + [batch[k]];
        if batch[k].receipt.Some? {
          leases.Track(batch[k].receipt.value, clock);
        }
      }
      assert batch[..|batch|] == batch;
    }

    /** A receive is answered; its messages are tracked at once. */
    method Arrive(b: nat)
      requires Valid() && b < |batches| && b !in arrived
      modifies this`arrived, this`stage, leases
      ensures Valid() && Awaited() && arrived == old(arrived) + {b}
    {
      hide Different, LeasesOk, ConfirmingOk, Receipts;
      NewlyArrived(batches, arrived, taken, stage, b);
      ArriveOk(leases.receipts.Keys, start, stage, confirmations.status, batches[b]);
      JoinedOk(acks, deferred, stage, confirmations.status, batches[b]);
      hide ArrivedOk, AcksOk, DeferredOk, Joined;
      TrackBatch(batches[b]);
      arrived := arrived + {b};
      stage := Joined(stage, batches[b]);
    }

    /** acknowledgeMessage begins: the lease goes first. */
    method BeginAcknowledgement(task: TaskId)
      requires Valid() && task in confirmations.status && confirmations.status[task].Queued?
      modifies leases, confirmations
      ensures Valid() && Awaited()
      ensures confirmations.pending == old(confirmations.pending)
      ensures confirmations.status == old(confirmations.status)[task := Running]
    {
      hide ConfirmingOk, ArrivedOk, Different, DeferredOk;
      StepOk(confirmations.State(), Runs(task));
      BeginOk(leases.receipts.Keys, start, stage, confirmations.status, confirmations.status[task := Running],
              acks[task]);
      hide LeasesOk, Leased;
      confirmations.Start(task);
      ReleaseReceipt(acks[task].receipt);
    }

    /** The delete succeeds or fails. */
    method EndAcknowledgement(task: TaskId, fails: bool)
      requires Valid() && task in confirmations.status && confirmations.status[task].Running?
      modifies confirmations
      ensures Valid() && Awaited()
      ensures confirmations.pending == old(confirmations.pending) - {task}
      ensures confirmations.status == old(confirmations.status)[task := Settled(fails)]
    {
      hide LeasesOk, ConfirmingOk, ArrivedOk, Different, DeferredOk;
      StepOk(confirmations.State(), Finishes(task, fails, false));
      StatusOk(leases.receipts.Keys, start, stage, confirmations.status, confirmations.status[task := Settled(fails)]);
      hide NotBegun;
      var reported := confirmations.Finish(task, fails, false);
    }

    /** A renewal sweep begins, one of its calls is answered somehow, or it ends; or time passes. */
    method RenewOrLose()
      modifies this`clock, leases
      ensures leases.receipts.Keys == old(leases.receipts.Keys) && old(clock) <= clock
    {
      if {
        case true =>
          var waits: seq<nat> := *;
          leases.RenewNow(clock, waits);
        case true => leases.Settle();
        case true =>
          var i: nat := *;
          var confirmed: Option<set<Receipt>> := *;
          if Awaits(leases.State(), i) {
            leases.Answer(i, confirmed);
          }
        case true =>
          var elapsed: nat :| elapsed >= 0;
          clock := clock + elapsed;
      }
    }

    method OneInterference()
      requires Valid()
      modifies this`clock, this`arrived, this`stage, leases, confirmations
      ensures Valid() && Awaited()
    {
      hide ConfirmingOk, LeasesOk, AcksOk, DeferredOk, ArrivedOk, Different;
      if {
        case true =>
          var b: nat := *;
          if b < |batches| && b !in arrived {
            Arrive(b);
          }
        case true =>
          var task: TaskId := *;
          if task in confirmations.status && confirmations.status[task].Queued? {
            BeginAcknowledgement(task);
          }
        case true =>
          var task: TaskId := *;
          var fails: bool := *;
          if task in confirmations.status && confirmations.status[task].Running? {
            EndAcknowledgement(task, fails);
          }
        case true => RenewOrLose();
      }
    }

    /** An await: any of these, any number of times. */
    method Interfere()
      requires Valid()
      modifies this`clock, this`arrived, this`stage, leases, confirmations
      ensures Valid() && Awaited()
    {
      hide Valid;
      var steps: nat := *;
      while steps > 0
        invariant Valid() && Awaited()
      {
        OneInterference();
        steps := steps - 1;
      }
    }

    method ReleaseReceipt(receipt: Option<Receipt>)
      modifies leases
      ensures leases.receipts.Keys == old(leases.receipts.Keys) - if receipt.Some? then {receipt.value} else {}
    {
      if receipt.Some? {
        var awaited := leases.Release(receipt.value);
      }
    }

    // ---- the acknowledgements ----

    /** Promise.race over the pending acknowledgements: until at least one of them has ended. */
    method SettleOne()
      requires Valid() && confirmations.pending != {}
      modifies this`clock, this`arrived, this`stage, leases, confirmations
      ensures Valid() && Awaited() && confirmations.pending < old(confirmations.pending)
    {
      hide Valid, Grown;
      var before := confirmations.pending;
      Interfere();
      if confirmations.pending == before {
        var task :| task in before;
        RunToEnd(task);
      }
    }

    method RunToEnd(task: TaskId)
      requires Valid() && task in confirmations.pending
      modifies leases, confirmations
      ensures Valid() && Awaited() && confirmations.pending == old(confirmations.pending) - {task}
    {
      hide ConfirmingOk, LeasesOk, AcksOk, DeferredOk, ArrivedOk, Different, Grown;
      PendingIs(confirmations.State(), task);
      hide Valid;
      if confirmations.status[task].Queued? {
        BeginAcknowledgement(task);
      }
      var fails: bool := *;
      EndAcknowledgement(task, fails);
    }

    /** One turn of schedule's loop. */
    method Admit(task: TaskId) returns (admitted: bool)
      requires Valid() && task < |acks| && (task in confirmations.status ==> confirmations.status[task].Waiting?)
      modifies confirmations
      ensures Valid()
      ensures confirmations.status ==
              old(confirmations.status)[task := if admitted then Queued else MessageBatch.Waiting]
      ensures !admitted ==> confirmations.pending == old(confirmations.pending) && confirmations.pending != {}
    {
      hide ConfirmingOk, LeasesOk, DeferredOk, ArrivedOk, Different;
      ghost var e := if task in confirmations.status then Wakes(task) else Schedules(task);
      StepOk(confirmations.State(), e);
      AdmitIs(confirmations.State(), task, e);
      StatusOk(leases.receipts.Keys, start, stage, confirmations.status, Step(confirmations.State(), e).status);
      hide Step, NotBegun;
      admitted := confirmations.Admit(task);
    }

    /** A message in hand gets its acknowledgement. */
    method Enlist(m: Message)
      requires Valid() && m in stage && stage[m] == InHand
      modifies this`acks, this`stage
      ensures Valid() && acks == old(acks) + [m] && stage == old(stage)[m := Scheduled(|old(acks)|)]
    {
      hide ConfirmingOk, LeasesOk, ArrivedOk, Different;
      ScheduledOk(acks, deferred, stage, confirmations.status, m);
      MoveOk(leases.receipts.Keys, start, stage, confirmations.status, m, Scheduled(|acks|));
      MovedArrived(batches, arrived, taken, stage, m, Scheduled(|acks|));
      hide AcksOk, DeferredOk;
      stage := stage[m := Scheduled(|acks|)];
      acks := acks + [m];
    }

    /** confirmations.schedule */
    method Schedule(m: Message)
      requires Valid() && AllAdmitted() && m in stage && stage[m] == InHand
      modifies this`clock, this`arrived, this`acks, this`stage, leases, confirmations
      ensures Valid() && AllAdmitted() && acks == old(acks) + [m]
      ensures m in stage && stage[m] == Scheduled(|old(acks)|) && Grown(old(stage) - {m}, stage)
      ensures old(arrived) <= arrived && old(clock) <= clock
    {
      var task := |acks|;
      assert task !in confirmations.status;
      hide Valid;
      Enlist(m);
      WaitForRoom(task);
    }

    method WaitForRoom(task: TaskId)
      requires Valid() && |acks| == task + 1 && task !in confirmations.status
      requires forall other | 0 <= other < task ::
               other in confirmations.status && !confirmations.status[other].Waiting?
      modifies this`clock, this`arrived, this`stage, leases, confirmations
      ensures Valid() && AllAdmitted() && Grown(old(stage), stage) && old(arrived) <= arrived && old(clock) <= clock
    {
      hide Valid;
      var admitted := Admit(task);
      while !admitted
        invariant Valid() && task in confirmations.status
        invariant confirmations.status[task].Waiting? <==> !admitted
        invariant !admitted ==> confirmations.pending != {}
        invariant forall other | 0 <= other < task ::
                  other in confirmations.status && !confirmations.status[other].Waiting?
        invariant Grown(old(stage), stage) && old(arrived) <= arrived && old(clock) <= clock
        decreases !admitted, confirmations.pending
      {
        SettleOne();
        admitted := Admit(task);
      }
    }

    // ---- the turn of a message ----

    /** The message gives up its lease. */
    method GiveUp(m: Message)
      requires Valid() && m in stage && (stage[m] == InHand || stage[m] == Loose)
      modifies this`stage, leases
      ensures Valid() && stage == old(stage)[m := Loose]
    {
      hide ConfirmingOk, LeasesOk, ArrivedOk, Different;
      ReleaseOk(leases.receipts.Keys, start, stage, confirmations.status, m);
      MovedArrived(batches, arrived, taken, stage, m, Loose);
      UnlistedOk(acks, deferred, stage, confirmations.status, m, Loose);
      hide AcksOk, DeferredOk;
      ReleaseReceipt(m.receipt);
      stage := stage[m := Loose];
    }

    /** handleMessage, as far as the cycle is concerned: it may give up the lease itself, and then does
        not return an acknowledgement. */
    method HandleMessage(m: Message) returns (handling: Handling)
      requires Valid() && AllAdmitted() && m in stage && stage[m] == InHand
      modifies this`clock, this`arrived, this`stage, leases, confirmations
      ensures Valid() && AllAdmitted() && old(arrived) <= arrived && old(clock) <= clock
      ensures m in stage && Grown(old(stage) - {m}, stage)
      ensures if handling.Acknowledges? then m.receipt.Some? && stage[m] == InHand
              else stage[m] == InHand || stage[m] == Loose
    {
      hide Valid;
      if m.receipt.None? {
        return Throws;
      }
      Interfere();
      handling := *;
      if !handling.Acknowledges? {
        GiveUp(m);
        Interfere();
      }
    }

    /** The message is handled; then its acknowledgement is scheduled or its lease released. */
    method Handle(m: Message) returns (handling: Handling)
      requires Valid() && AllAdmitted() && m in stage && stage[m] == InHand
      modifies this`clock, this`arrived, this`acks, this`stage, leases, confirmations
      ensures Valid() && AllAdmitted() && old(arrived) <= arrived && old(clock) <= clock
      ensures m in stage && Over(stage[m]) && Grown(old(stage) - {m}, stage)
      ensures acks == if m.receipt.Some? && handling.Acknowledges? then old(acks) + [m] else old(acks)
    {
      hide Valid;
      handling := HandleMessage(m);
      if handling.Acknowledges? {
        Schedule(m);
      } else {
        GiveUp(m);
        Interfere();
      }
    }

    /** The message of a batch that is being processed has its turn. */
    ghost method Proceed(m: Message, b: nat)
      requires Valid() && m in stage && stage[m] == Buffered && b in taken && b < |batches| && m in batches[b]
      modifies this`stage
      ensures Valid() && stage == old(stage)[m := InHand]
    {
      hide ConfirmingOk, LeasesOk, ArrivedOk, Different, AcksOk, DeferredOk;
      MoveOk(leases.receipts.Keys, start, stage, confirmations.status, m, InHand);
      TurnArrived(batches, arrived, taken, stage, b, m, InHand);
      UnlistedOk(acks, deferred, stage, confirmations.status, m, InHand);
      stage := stage[m := InHand];
    }

    method Defer(m: Message, b: nat)
      requires Valid() && m in stage && stage[m] == Buffered && b in taken && b < |batches| && m in batches[b]
      modifies this`stage, this`deferred
      ensures Valid() && stage == old(stage)[m := Deferred] && deferred == old(deferred) + [m]
    {
      hide ConfirmingOk, LeasesOk, ArrivedOk, Different, AcksOk, DeferredOk;
      MoveOk(leases.receipts.Keys, start, stage, confirmations.status, m, Deferred);
      TurnArrived(batches, arrived, taken, stage, b, m, Deferred);
      DeferOk(acks, deferred, stage, confirmations.status, m);
      deferred := deferred + [m];
      stage := stage[m := Deferred];
    }

    /** turns.take, when the body names a tenant; with a turn the message is handled. */
    method TakeTurn(m: Message) returns (turn: bool)
      requires TurnsOk()
      modifies this`handled, turns
      ensures TurnsOk() && handled == if turn then old(handled) + [m] else old(handled)
      ensures turn <==> m.tenant.None? || OfTenant(old(handled), m.tenant.value) < 10
    {
      turn := true;
      if m.tenant.Some? {
        turn := turns.Take(m.tenant.value);
      }
      if turn {
        forall t ensures OfTenant(handled + [m], t) == turns.Used(t) {
          OfTenantAppend(handled, m, t);
        }
        handled := handled + [m];
      }
    }

    method Skip(m: Message, b: nat)
      requires Valid() && AllAdmitted()
      requires m in stage && stage[m] == Buffered && b in taken && b < |batches| && m in batches[b]
      modifies this`clock, this`arrived, this`skipped, this`stage, leases, confirmations
      ensures Valid() && AllAdmitted() && old(arrived) <= arrived && old(clock) <= clock
      ensures m in stage && stage[m] == Loose && Grown(old(stage) - {m}, stage)
      ensures skipped == old(skipped) + [m]
    {
      hide Valid;
      skipped := skipped + [m];
      Proceed(m, b);
      GiveUp(m);
      Interfere();
    }

    predicate Exhausted(m: Message)
      reads this`handled
    {
      m.tenant.Some? && OfTenant(handled, m.tenant.value) >= TURNS
    }

    /** A message whose lease is current is handled or deferred. */
    method HandleOrDefer(m: Message, b: nat) returns (handling: Handling)
      requires Valid() && AllAdmitted() && TurnsOk()
      requires m in stage && stage[m] == Buffered && b in taken && b < |batches| && m in batches[b]
      modifies this`clock, this`arrived, this`handled, this`deferred, this`acks, this`stage
      modifies leases, turns, confirmations
      ensures Valid() && AllAdmitted() && TurnsOk() && old(arrived) <= arrived && old(clock) <= clock
      ensures m in stage && Over(stage[m]) && Grown(old(stage) - {m}, stage)
      ensures handled == if old(Exhausted(m)) then old(handled) else old(handled) + [m]
      ensures deferred == if old(Exhausted(m)) then old(deferred) + [m] else old(deferred)
      ensures acks == if !old(Exhausted(m)) && m.receipt.Some? && handling.Acknowledges?
                      then old(acks) + [m] else old(acks)
    {
      hide Valid, OfTenant, TurnsOk;
      var turn := TakeTurn(m);
      if turn {
        Proceed(m, b);
        handling := Handle(m);
      } else {
        Defer(m, b);
        handling := Keeps;
        Interfere();
      }
    }

    /** The callback of processDeliveryBatch for the next message of batch `b`: it is skipped, deferred or
        handled by the lease and the turns that it meets. */
    method Decide(m: Message, b: nat) returns (handling: Handling)
      requires Valid() && AllAdmitted() && TurnsOk()
      requires m in stage && stage[m] == Buffered && b in taken && b < |batches| && m in batches[b]
      modifies this`clock, this`arrived, this`handled, this`skipped, this`deferred, this`acks, this`stage
      modifies leases, turns, confirmations
      ensures Valid() && AllAdmitted() && TurnsOk() && old(arrived) <= arrived && old(clock) <= clock
      ensures Fates() == Place(old(Fates()), Turn(m, old(leases.State()), old(clock), handling))
      ensures m in stage && Over(stage[m]) && Grown(old(stage) - {m}, stage)
    {
      hide Valid, OfTenant, TurnsOk, AllAdmitted, Grown, HoldsLease;
      var current := true;
      if m.receipt.Some? {
        current := leases.IsCurrent(m.receipt.value, clock);
      }
      if current {
        handling := HandleOrDefer(m, b);
      } else {
        handling := Keeps;
        Skip(m, b);
      }
    }

    lemma BufferedLasts(m: Message)
      requires Valid() && m in stage && stage[m] == Buffered
      ensures Apart(stage.Keys) && m.receipt.Some? ==> m.receipt.value in leases.receipts
    {
      BufferedIsTracked(leases.receipts.Keys, start, stage, confirmations.status, m);
    }

    /** One turn. A lease is never missing because somebody else gave it up. */
    method Process(m: Message, b: nat)
      requires Valid() && AllAdmitted() && TurnsOk() && Fates() == PlaceAll(log)
      requires m in stage && stage[m] == Buffered && b in taken && b < |batches| && m in batches[b]
      modifies this`clock, this`arrived, this`handled, this`skipped, this`deferred, this`acks, this`stage, this`log
      modifies leases, turns, confirmations
      ensures Valid() && AllAdmitted() && TurnsOk() && Fates() == PlaceAll(log) && old(arrived) <= arrived
              && old(clock) <= clock
      ensures |log| == |old(log)| + 1 && log[..|old(log)|] == old(log)
      ensures log[|old(log)|] == Turn(m, old(leases.State()), old(clock), log[|old(log)|].handling)
      ensures Apart(old(stage).Keys) && m.receipt.Some? ==> m.receipt.value in old(leases.receipts)
      ensures m in stage && Over(stage[m]) && Grown(old(stage) - {m}, stage)
    {
      hide *;
      BufferedLasts(m);
      ghost var met, now := leases.State(), clock;
      var handling := Decide(m, b);
      log := log + [Turn(m, met, now, handling)];
      PlaceAppend(old(log), Turn(m, met, now, handling));
    }

    // ---- the cycle ----

    /** processDeliveryBatch for the receive `b`. */
    method ProcessBatch(b: nat)
      requires Valid() && AllAdmitted() && TurnsOk() && Fates() == PlaceAll(log)
      requires b in arrived && b < |batches| && b !in taken
      modifies this`clock, this`arrived, this`taken, this`handled, this`skipped, this`deferred, this`acks, this`stage
      modifies this`log, leases, turns, confirmations
      ensures Valid() && AllAdmitted() && TurnsOk() && Fates() == PlaceAll(log)
      ensures taken == old(taken) + [b] && old(arrived) <= arrived && old(clock) <= clock
      ensures MessagesOf(log) == MessagesOf(old(log)) + batches[b]
      ensures forall m | m in batches[b] :: m in stage && Over(stage[m])
      ensures Grown(old(stage) - Elements(batches[b]), stage)
    {
      hide *;
      ghost var batch := batches[b];
      GrownSame(stage, batch);
      Take(b);
      MessagesEnd(log, batch);
      for k := 0 to |batches[b]|
        invariant Valid() && AllAdmitted() && TurnsOk() && Fates() == PlaceAll(log)
        invariant taken == old(taken) + [b] && old(arrived) <= arrived && old(clock) <= clock
        invariant MessagesOf(log) == MessagesOf(old(log)) + batch[..k]
        invariant Progress(batch, k, stage) && Grown(old(stage) - Elements(batch), stage)
      {
        ghost var before, stages := log, stage;
        ProgressNow(batch, k, stage);
        Process(batches[b][k], b);
        MessagesAppend(before, log);
        ProgressOn(old(stage), stages, stage, batch, k);
        assert batch[..k + 1] == batch[..k] + [batch[k]];
      }
      assert batch[..|batch|] == batch;
      ProgressEnd(batch, stage);
    }

    method Take(b: nat)
      requires Valid() && b in arrived && b < |batches| && b !in taken
      modifies this`taken
      ensures Valid() && taken == old(taken) + [b]
      ensures Progress(batches[b], 0, stage)
    {
      hide ConfirmingOk, LeasesOk, AcksOk, DeferredOk;
      forall m | m in batches[b] ensures m in stage {
        assert Came(batches, arrived, m);
      }
      taken := taken + [b];
    }

    /** Promise.race over the receives that are not processed: until at least one is answered. */
    method NextReceive(waiting: set<nat>) returns (b: nat)
      requires Valid() && AllAdmitted() && waiting != {} && forall c | c in waiting :: c < |batches| && c !in taken
      modifies this`clock, this`arrived, this`stage, leases, confirmations
      ensures Valid() && AllAdmitted() && b in waiting && b in arrived
      ensures Grown(old(stage), stage) && old(arrived) <= arrived && old(clock) <= clock
    {
      hide Valid, Grown;
      Interfere();
      if exists c :: c in waiting && c in arrived {
        b :| b in waiting && b in arrived;
      } else {
        b :| b in waiting;
        ghost var before := stage;
        Arrive(b);
        GrownThrough(old(stage), before, stage);
      }
    }

    // ---- the end of the cycle ----

    /** confirmations.drain */
    method Drain()
      requires Valid() && AllAdmitted()
      modifies this`clock, this`arrived, this`stage, leases, confirmations
      ensures Valid() && AllAdmitted() && confirmations.pending == {}
      ensures Grown(old(stage), stage) && old(arrived) <= arrived && old(clock) <= clock
    {
      hide Valid, Grown;
      var awaited := BeginDrain();
      GrownSame(stage, []);
      while awaited * confirmations.pending != {}
        invariant Valid() && AllAdmitted() && confirmations.pending <= awaited
        invariant Grown(old(stage), stage) && old(arrived) <= arrived && old(clock) <= clock
        decreases confirmations.pending
      {
        ghost var before := stage;
        SettleOne();
        GrownThrough(old(stage), before, stage);
      }
    }

    method BeginDrain() returns (awaited: set<TaskId>)
      requires Valid()
      modifies confirmations
      ensures Valid() && awaited == confirmations.pending
      ensures confirmations.pending == old(confirmations.pending) && confirmations.status == old(confirmations.status)
    {
      hide ConfirmingOk, LeasesOk, AcksOk, DeferredOk, ArrivedOk, Different;
      StepOk(confirmations.State(), BeginsDrain);
      awaited := confirmations.BeginDrain();
    }

    method ReleaseAll(receipts: seq<Receipt>)
      modifies leases
      ensures leases.receipts.Keys == old(leases.receipts.Keys) - set r | r in receipts
    {
      for k := 0 to |receipts|
        invariant leases.receipts.Keys == old(leases.receipts.Keys) - set r | r in receipts[..k]
      {
        ReleaseReceipt(Some(receipts[k]));
        assert receipts[..k + 1] == receipts[..k] + [receipts[k]];
      }
      assert receipts[..|receipts|] == receipts;
    }

    /** An await when only renewals and the clock are left. */
    method Renewals()
      modifies this`clock, leases
      ensures leases.receipts.Keys == old(leases.receipts.Keys)
    {
      var steps: nat := *;
      while steps > 0
        invariant leases.receipts.Keys == old(leases.receipts.Keys)
      {
        RenewOrLose();
        steps := steps - 1;
      }
    }

    /** deferExcessMessages: all leases are released, then the visibility is changed in batches of ten.
        `answer(i)` is the answer to batch i, None when its request failed. */
    method DeferExcess(answer: nat -> Option<BatchResult>) returns (counted: nat)
      modifies this`clock, leases
      ensures leases.receipts.Keys == old(leases.receipts.Keys) - Receipts(deferred)
      ensures counted == CountConfirmed(ReceiptList(deferred), answer, 0)
    {
      var receipts := ReceiptList(deferred);
      ReleaseAll(receipts);
      assert (set r | r in receipts) == Receipts(deferred);
      Renewals();
      counted := ChangeVisibility(receipts, answer);
      Renewals();
    }

    static method ChangeVisibility(receipts: seq<Receipt>, answer: nat -> Option<BatchResult>) returns (counted: nat)
      ensures counted == CountConfirmed(receipts, answer, 0)
    {
      hide Confirmed;
      counted := 0;
      var offset, i := 0, 0;
      while offset < |receipts|
        invariant 0 <= offset == DEFERRAL * i
        invariant counted + CountConfirmed(if offset < |receipts| then receipts[offset..] else [], answer, i)
                  == CountConfirmed(receipts, answer, 0)
      {
        var end := if offset + DEFERRAL < |receipts| then offset + DEFERRAL else |receipts|;
        var batch := receipts[offset..end];
        assert receipts[offset..][..end - offset] == batch && receipts[offset..][end - offset..] == receipts[end..];
        assert end == |receipts| ==> receipts[end..] == [];
        if answer(i).Some? {
          var confirmed := ConfirmedBatchReceipts(batch, answer(i).value);
          counted := counted + |confirmed|;
        }
        offset := offset + DEFERRAL;
        i := i + 1;
      }
    }

    /** The loop over the receives, in the order in which they win the race. */
    method ReceiveAll()
      requires Different(batches) && Valid() && AllAdmitted() && TurnsOk() && taken == [] && log == []
               && Fates() == Nothing
      modifies this`clock, this`arrived, this`taken, this`handled, this`skipped, this`deferred, this`acks, this`stage
      modifies this`log, leases, turns, confirmations
      ensures Valid() && AllAdmitted() && TurnsOk() && Fates() == PlaceAll(log)
      ensures IsOrder(taken, |batches|) && MessagesOf(log) == InOrder(batches, taken)
      ensures AllOver(batches, taken, stage)
    {
      hide *;
      var waiting := Below(|batches|);
      NothingYet(batches, stage);
      while waiting != {}
        invariant Valid() && AllAdmitted() && TurnsOk() && Fates() == PlaceAll(log)
        invariant forall b: nat :: b in waiting <==> b < |batches| && b !in taken
        invariant forall i | 0 <= i < |taken| :: taken[i] < |batches|
        invariant Distinct(taken) && MessagesOf(log) == InOrder(batches, taken)
        invariant AllOver(batches, taken, stage)
        decreases waiting
      {
        ghost var stages, before := stage, taken;
        var b := NextReceive(waiting);
        OverGrown(batches, taken, stages, stage);
        stages := stage;
        DistinctAppend(taken, b);
        InOrderAppend(batches, taken, b);
        ProcessBatch(b);
        OverNext(batches, before, b, stages, stage);
        waiting := waiting - {b};
      }
      OrderEnd(taken, |batches|);
    }

    /** One cycle: the receives, the drain, and the deferral of what exceeded the turns. */
    method Run(answer: nat -> Option<BatchResult>) returns (counted: nat)
      requires Different(batches) && Valid() && AllAdmitted() && TurnsOk() && taken == [] && log == []
               && Fates() == Nothing
      modifies this`clock, this`arrived, this`taken, this`handled, this`skipped, this`deferred, this`acks, this`stage
      modifies this`log, leases, turns, confirmations
      ensures leases.receipts.Keys == start - Receipts(Flat(batches))
      ensures forall i | 0 <= i < |acks| :: i in confirmations.status && confirmations.status[i].Settled?
      ensures IsOrder(taken, |batches|) && MessagesOf(log) == InOrder(batches, taken) && Fates() == PlaceAll(log)
      ensures counted == CountConfirmed(ReceiptList(deferred), answer, 0)
    {
      hide *;
      ReceiveAll();
      ghost var stages := stage;
      Drain();
      OverGrown(batches, taken, stages, stage);
      EndOfCycle();
      counted := DeferExcess(answer);
    }

    lemma EndOfCycle()
      requires Valid() && AllAdmitted() && confirmations.pending == {}
      requires IsOrder(taken, |batches|) && AllOver(batches, taken, stage)
      ensures leases.receipts.Keys - Receipts(deferred) == start - Receipts(Flat(batches))
      ensures forall i | 0 <= i < |acks| :: i in confirmations.status && confirmations.status[i].Settled?
    {
      hide LeasesOk, DeferredOk, Different, Receipts, Flat, TaskOk;
      forall m ensures m in stage <==> m in Flat(batches) {
        CameIsFlat(batches, arrived, m);
      }
      forall m | m in stage ensures Over(stage[m]) {
        var b :| b in arrived && b < |batches| && m in batches[b];
        assert b in taken;
      }
      forall i | 0 <= i < |acks| ensures confirmations.status[i].Settled? {
        SettledAtEnd(confirmations.State(), i);
      }
      assert forall m | m in stage && stage[m].Scheduled? :: !NotBegun(confirmations.status, stage[m].task);
      hide *;
      EndOk(leases.receipts.Keys, start, stage, confirmations.status, deferred, Flat(batches));
    }
  }

  lemma BeginsOk(limit: int)
    requires limit >= 1
    ensures ConfirmingOk(Begin(limit))
  {
  }

  lemma JoinedOk(acks: seq<Message>, deferred: seq<Message>, stage: Stages, status: Statuses, arriving: seq<Message>)
    requires AcksOk(acks, stage, status) && DeferredOk(deferred, stage) && forall m | m in arriving :: m !in stage
    ensures AcksOk(acks, Joined(stage, arriving), status) && DeferredOk(deferred, Joined(stage, arriving))
  {
  }

  lemma UnlistedOk(acks: seq<Message>, deferred: seq<Message>, stage: Stages, status: Statuses, m: Message, to: Stage)
    requires AcksOk(acks, stage, status) && DeferredOk(deferred, stage)
    requires m in stage && stage[m] != Deferred && !stage[m].Scheduled? && to != Deferred && !to.Scheduled?
    ensures AcksOk(acks, stage[m := to], status) && DeferredOk(deferred, stage[m := to])
  {
  }

  lemma DeferOk(acks: seq<Message>, deferred: seq<Message>, stage: Stages, status: Statuses, m: Message)
    requires AcksOk(acks, stage, status) && DeferredOk(deferred, stage)
    requires m in stage && !stage[m].Scheduled?
    ensures AcksOk(acks, stage[m := Deferred], status) && DeferredOk(deferred + [m], stage[m := Deferred])
  {
  }

  lemma TurnArrived(batches: seq<seq<Message>>, arrived: set<nat>, taken: seq<nat>, stage: Stages,
                    b: nat, m: Message, to: Stage)
    requires Different(batches) && ArrivedOk(batches, arrived, taken, stage)
    requires b in taken && b < |batches| && m in batches[b] && m in stage
    ensures ArrivedOk(batches, arrived, taken, stage[m := to])
  {
    hide Different, Came;
    forall c | c in arrived && c !in taken ensures m !in batches[c] {
      NotArrived(batches, {c}, b, m);
      OnlyBatch(batches, c, m);
    }
  }

  lemma OnlyBatch(batches: seq<seq<Message>>, c: nat, m: Message)
    requires c < |batches|
    ensures Came(batches, {c}, m) <==> m in batches[c]
  {
    assert c in {c};
  }

  lemma BufferedIsTracked(keys: set<Receipt>, start: set<Receipt>, stage: Stages, status: Statuses, m: Message)
    requires LeasesOk(keys, start, stage, status) && m in stage && stage[m] == Buffered
    ensures Apart(stage.Keys) && m.receipt.Some? ==> m.receipt.value in keys
  {
  }

  lemma AdmitIs(s: Confirming, task: TaskId, e: Event)
    requires e == if task in s.status then Wakes(task) else Schedules(task)
    requires s.limit == 10 && (task in s.status ==> s.status[task].Waiting?)
    ensures var t := Step(s, e);
            if CanAdmit(s.pending, s.limit) then t.status == s.status[task := Queued] && t.pending == s.pending + {task}
            else t.status == s.status[task := MessageBatch.Waiting] && t.pending == s.pending && s.pending != {}
  {
  }

  lemma PendingIs(s: Confirming, task: TaskId)
    requires ConfirmingOk(s) && task in s.pending
    ensures task in s.status && (s.status[task].Queued? || s.status[task].Running?)
  {
    assert TaskOk(s, task);
  }

  /** A message in hand gets its acknowledgement. */
  lemma ScheduledOk(acks: seq<Message>, deferred: seq<Message>, stage: Stages, status: Statuses, m: Message)
    requires AcksOk(acks, stage, status) && DeferredOk(deferred, stage) && m in stage && stage[m] == InHand
    ensures Leased(Scheduled(|acks|), status)
    ensures AcksOk(acks + [m], stage[m := Scheduled(|acks|)], status)
    ensures DeferredOk(deferred, stage[m := Scheduled(|acks|)])
  {
  }

  /** A message that has had its turn goes on. */
  lemma MovedArrived(batches: seq<seq<Message>>, arrived: set<nat>, taken: seq<nat>, stage: Stages, m: Message,
                     to: Stage)
    requires ArrivedOk(batches, arrived, taken, stage) && m in stage && stage[m] != Buffered
    ensures ArrivedOk(batches, arrived, taken, stage[m := to])
  {
    hide Came;
  }

  lemma GrownSame(stage: Stages, batch: seq<Message>)
    ensures Grown(stage, stage) && Grown(stage - Elements(batch), stage)
  {
  }

  lemma GrownThrough(before: Stages, between: Stages, after: Stages)
    ensures Grown(before, between) && Grown(between, after) ==> Grown(before, after)
  {
  }

  /** The first `k` messages of the batch have had their turns, the others wait; all are different. */
  ghost predicate Progress(batch: seq<Message>, k: nat, stage: Stages) {
    && k <= |batch| && Distinct(batch)
    && (forall j | 0 <= j < |batch| :: batch[j] in stage &&
          if j < k then Over(stage[batch[j]]) else stage[batch[j]] == Buffered)
  }

  lemma ProgressNow(batch: seq<Message>, k: nat, stage: Stages)
    requires Progress(batch, k, stage) && k < |batch|
    ensures batch[k] in stage && stage[batch[k]] == Buffered
  {
  }

  lemma ProgressOn(start: Stages, before: Stages, after: Stages, batch: seq<Message>, k: nat)
    requires Progress(batch, k, before) && k < |batch| && Grown(start - Elements(batch), before)
    requires batch[k] in after && Over(after[batch[k]]) && Grown(before - {batch[k]}, after)
    ensures Progress(batch, k + 1, after) && Grown(start - Elements(batch), after)
  {
    forall j | 0 <= j < |batch| && j != k ensures batch[j] in after && after[batch[j]] == before[batch[j]] {
      assert batch[j] in before - {batch[k]};
    }
    forall m | m in start - Elements(batch) ensures m in after && after[m] == start[m] {
      assert m in before - {batch[k]};
    }
  }

  lemma ProgressEnd(batch: seq<Message>, stage: Stages)
    requires Progress(batch, |batch|, stage)
    ensures forall m | m in batch :: m in stage && Over(stage[m])
  {
  }

  lemma MessagesEnd(log: seq<Turn>, batch: seq<Message>)
    ensures MessagesOf(log) == MessagesOf(log) + batch[..0]
  {
  }

  function Elements(messages: seq<Message>): set<Message> {
    set m | m in messages
  }

  lemma MessagesAppend(log: seq<Turn>, more: seq<Turn>)
    requires |more| == |log| + 1 && more[..|log|] == log
    ensures MessagesOf(more) == MessagesOf(log) + [more[|log|].message]
  {
    assert forall i | 0 <= i < |log| :: more[i] == more[..|log|][i];
  }

  lemma ReceiptsAppend(messages: seq<Message>, m: Message)
    ensures Receipts(messages + [m]) == Receipts(messages) + ReceiptOf(m)
  {
    assert forall x :: x in messages + [m] <==> x in messages || x == m;
  }

  lemma NotArrived(batches: seq<seq<Message>>, arrived: set<nat>, b: nat, m: Message)
    requires Different(batches) && b < |batches| && b !in arrived && m in batches[b]
    ensures !Came(batches, arrived, m)
  {
    var i :| 0 <= i < |batches[b]| && batches[b][i] == m;
  }

  lemma CameMore(batches: seq<seq<Message>>, arrived: set<nat>, b: nat, m: Message)
    requires b < |batches|
    ensures Came(batches, arrived + {b}, m) <==> Came(batches, arrived, m) || m in batches[b]
  {
    if m in batches[b] {
      assert b in arrived + {b};
    } else if Came(batches, arrived, m) {
      var c :| c in arrived && c < |batches| && m in batches[c];
      assert c in arrived + {b};
    }
  }

  lemma NewlyArrived(batches: seq<seq<Message>>, arrived: set<nat>, taken: seq<nat>, stage: Stages, b: nat)
    requires Different(batches) && ArrivedOk(batches, arrived, taken, stage) && b < |batches| && b !in arrived
    ensures forall m | m in batches[b] :: m !in stage
    ensures ArrivedOk(batches, arrived + {b}, taken, Joined(stage, batches[b]))
            && Grown(stage, Joined(stage, batches[b]))
  {
    hide Different;
    var more := arrived + {b};
    forall m | m in batches[b] ensures m !in stage {
      NotArrived(batches, arrived, b, m);
    }
    hide Came;
    forall m ensures Came(batches, more, m) <==> Came(batches, arrived, m) || m in batches[b] {
      CameMore(batches, arrived, b, m);
    }
  }

  // ---- the results of a cycle ----

  function Below(n: nat): (s: set<nat>)
    ensures forall b: nat :: b in s <==> b < n
  {
    if n == 0 then {} else Below(n - 1) + {n - 1}
  }

  /** Each of the numbers below `n` once. */
  ghost predicate IsOrder(order: seq<nat>, n: nat) {
    (forall i | 0 <= i < |order| :: order[i] < n) && Distinct(order) && forall b: nat | b < n :: b in order
  }

  /** The messages of the batches, the batches one after the other in this order. */
  function InOrder(batches: seq<seq<Message>>, order: seq<nat>): seq<Message>
    requires forall i | 0 <= i < |order| :: order[i] < |batches|
  {
    if order == [] then []
    else
      InOrder(batches, order[..|order| - 1]) + batches[order[|order| - 1]]
  }

  function Flat(batches: seq<seq<Message>>): seq<Message> {
    if batches == [] then [] else Flat(batches[..|batches| - 1]) + batches[|batches| - 1]
  }

  /** Only the receipts confirmed for their own batch count as deferred. */
  ghost function CountConfirmed(receipts: seq<Receipt>, answer: nat -> Option<BatchResult>, i: nat): nat {
    if receipts == [] then 0
    else
      var n := if |receipts| <= DEFERRAL then |receipts| else DEFERRAL;
      (if answer(i).Some? then |Confirmed(receipts[..n], answer(i).value)| else 0) +
      CountConfirmed(receipts[n..], answer, i + 1)
  }

  ghost predicate AllOver(batches: seq<seq<Message>>, taken: seq<nat>, stage: Stages) {
    forall b, m | b in taken && b < |batches| && m in batches[b] :: m in stage && Over(stage[m])
  }

  lemma DistinctAppend(order: seq<nat>, b: nat)
    requires Distinct(order) && b !in order
    ensures Distinct(order + [b]) && forall c :: c in order + [b] <==> c in order || c == b
  {
  }

  lemma InOrderAppend(batches: seq<seq<Message>>, order: seq<nat>, b: nat)
    requires (forall i | 0 <= i < |order| :: order[i] < |batches|) && b < |batches|
    ensures InOrder(batches, order + [b]) == InOrder(batches, order) + batches[b]
  {
    assert (order + [b])[..|order|] == order;
  }

  lemma NothingYet(batches: seq<seq<Message>>, stage: Stages)
    ensures PlaceAll([]) == Nothing && MessagesOf([]) == InOrder(batches, [])
    ensures Distinct<nat>([]) && AllOver(batches, [], stage)
  {
  }

  lemma OrderEnd(order: seq<nat>, n: nat)
    requires (forall i | 0 <= i < |order| :: order[i] < n) && Distinct(order) && forall b: nat | b < n :: b in order
    ensures IsOrder(order, n)
  {
  }

  lemma OverGrown(batches: seq<seq<Message>>, taken: seq<nat>, before: Stages, after: Stages)
    requires AllOver(batches, taken, before) && Grown(before, after)
    ensures AllOver(batches, taken, after)
  {
  }

  lemma OverNext(batches: seq<seq<Message>>, taken: seq<nat>, b: nat, before: Stages, after: Stages)
    requires Different(batches) && AllOver(batches, taken, before) && b < |batches| && b !in taken
    requires Grown(before - Elements(batches[b]), after)
    requires forall m | m in batches[b] :: m in after && Over(after[m])
    ensures AllOver(batches, taken + [b], after)
  {
    hide Different;
    forall c, m | c in taken && c < |batches| && m in batches[c] ensures m in after && Over(after[m]) {
      NotArrived(batches, {b}, c, m);
      OnlyBatch(batches, b, m);
      assert m in before - Elements(batches[b]);
    }
  }

  lemma SettledAtEnd(s: Confirming, task: TaskId)
    requires ConfirmingOk(s) && s.pending == {} && task in s.status && !s.status[task].Waiting?
    ensures s.status[task].Settled?
  {
    assert TaskOk(s, task);
  }

  lemma {:induction false} InFlat(batches: seq<seq<Message>>, m: Message)
    ensures m in Flat(batches) <==> exists b: nat :: b < |batches| && m in batches[b]
  {
    if batches != [] {
      var n := |batches| - 1;
      InFlat(batches[..n], m);
      if b: nat :| b < n && m in batches[..n][b] {
        assert m in batches[b];
      }
      if b: nat :| b < |batches| && m in batches[b] {
        assert b < n ==> m in batches[..n][b];
      }
    }
  }

  /** When every receive is answered, every message has arrived. */
  lemma CameIsFlat(batches: seq<seq<Message>>, arrived: set<nat>, m: Message)
    requires forall b: nat | b < |batches| :: b in arrived
    ensures Came(batches, arrived, m) <==> m in Flat(batches)
  {
    InFlat(batches, m);
    hide Flat;
    if b: nat :| b < |batches| && m in batches[b] {
      assert b in arrived;
    }
  }

  /** When all turns are over and all acknowledgements have begun, only the deferred messages have leases. */
  lemma EndOk(keys: set<Receipt>, start: set<Receipt>, stage: Stages, status: Statuses, deferred: seq<Message>,
              messages: seq<Message>)
    requires LeasesOk(keys, start, stage, status) && DeferredOk(deferred, stage)
    requires forall m :: m in stage <==> m in messages
    requires forall m | m in stage :: Over(stage[m])
    requires forall m | m in stage && stage[m].Scheduled? :: !NotBegun(status, stage[m].task)
    ensures keys - Receipts(deferred) == start - Receipts(messages)
  {
    forall r ensures Unseen(stage, r) <==> r !in Receipts(messages) {
      assert r in Receipts(messages) <==> exists m :: m in messages && Has(m, r);
    }
    forall r | Owed(stage, status, r) ensures r in Receipts(deferred) {
      var m :| m in stage && Has(m, r) && Leased(stage[m], status);
      assert m in deferred;
    }
    hide NotBegun, Leased, Owed, Unseen;
  }

  function All(s: Split): multiset<Message> {
    multiset(s.handled) + multiset(s.skipped) + multiset(s.deferred)
  }

  lemma PlacedOne(s: Split, a: Turn)
    ensures All(Place(s, a)) == All(s) + multiset{a.message}
  {
  }

  lemma {:induction false} PlacedOnce(log: seq<Turn>)
    ensures All(PlaceAll(log)) == multiset(MessagesOf(log))
  {
    if log == [] {
      assert MessagesOf(log) == [];
    } else {
      var front := log[..|log| - 1];
      PlacedOnce(front);
      MessagesAppend(front, log);
      PlacedOne(PlaceAll(front), log[|log| - 1]);
      hide Place, All, MessagesOf;
    }
  }

  /** Leaving one batch out. */
  lemma {:induction false} InOrderWithout(batches: seq<seq<Message>>, order: seq<nat>, i: nat)
    requires i < |order| && forall j | 0 <= j < |order| :: order[j] < |batches|
    ensures var others := order[..i] + order[i + 1..];
            && (forall j | 0 <= j < |others| :: others[j] < |batches|)
            && multiset(InOrder(batches, order)) == multiset(InOrder(batches, others)) + multiset(batches[order[i]])
  {
    var n := |order| - 1;
    var others := order[..i] + order[i + 1..];
    var front := order[..n];
    assert order == front + [order[n]];
    InOrderAppend(batches, front, order[n]);
    if i == n {
      assert others == front;
    } else {
      InOrderWithout(batches, front, i);
      var fewer := front[..i] + front[i + 1..];
      assert others == fewer + [order[n]];
      InOrderAppend(batches, fewer, order[n]);
    }
    hide *;
  }

  lemma {:induction false} AnyOrder(batches: seq<seq<Message>>, order: seq<nat>)
    requires IsOrder(order, |batches|)
    ensures multiset(InOrder(batches, order)) == multiset(Flat(batches))
  {
    NoneBelow(order, |batches|);
    if batches != [] {
      var n := |batches| - 1;
      assert n in order;
      var i :| 0 <= i < |order| && order[i] == n;
      var others := order[..i] + order[i + 1..];
      InOrderWithout(batches, order, i);
      OthersAreOrder(order, i, n);
      AnyOrder(batches[..n], others);
      InOrderOfFewer(batches, n, others);
      hide InOrder, IsOrder;
    }
  }

  lemma NoneBelow(order: seq<nat>, n: nat)
    requires IsOrder(order, n)
    ensures n == 0 ==> order == []
  {
    if order != [] {
      assert order[0] < n;
    }
  }

  lemma OthersAreOrder(order: seq<nat>, i: nat, n: nat)
    requires IsOrder(order, n + 1) && i < |order| && order[i] == n
    ensures IsOrder(order[..i] + order[i + 1..], n)
  {
    var others := order[..i] + order[i + 1..];
    forall b: nat | b < n ensures b in others {
      assert b in order;
      var j :| 0 <= j < |order| && order[j] == b;
      assert others[if j < i then j else j - 1] == b;
    }
  }

  lemma {:induction false} InOrderOfFewer(batches: seq<seq<Message>>, n: nat, order: seq<nat>)
    requires n <= |batches| && forall j | 0 <= j < |order| :: order[j] < n
    ensures InOrder(batches[..n], order) == InOrder(batches, order)
  {
    if order != [] {
      InOrderOfFewer(batches, n, order[..|order| - 1]);
    }
  }

  /** Every received message is handled, skipped or deferred, and that exactly once, in whatever order the
      receives are answered and whatever the leases and the turns are. */
  lemma EveryMessageOnce(batches: seq<seq<Message>>, order: seq<nat>, log: seq<Turn>)
    requires IsOrder(order, |batches|) && MessagesOf(log) == InOrder(batches, order)
    ensures All(PlaceAll(log)) == multiset(Flat(batches))
  {
    PlacedOnce(log);
    AnyOrder(batches, order);
  }

  /** The lease of the message had at most five seconds left, or was gone, when its turn came. */
  ghost predicate MetUncertain(log: seq<Turn>, m: Message) {
    exists i :: 0 <= i < |log| && log[i].message == m && m.receipt.Some? &&
                (if m.receipt.value in log[i].leases.receipts
                 then log[i].leases.receipts[m.receipt.value].expiresAt else 0) <= log[i].now + 5000
  }

  /** Just the messages whose ownership had become uncertain are skipped. */
  lemma {:induction false} SkippedIffUncertain(log: seq<Turn>, m: Message)
    ensures m in PlaceAll(log).skipped <==> MetUncertain(log, m)
  {
    if log != [] {
      var n := |log| - 1;
      SkippedIffUncertain(log[..n], m);
      assert MetUncertain(log, m) <==> MetUncertain(log[..n], m) || (log[n].message == m && Uncertain(log[n])) by {
        UncertainToo(log, m);
      }
      hide Uncertain, OfTenant, MetUncertain;
    }
  }

  lemma UncertainToo(log: seq<Turn>, m: Message)
    requires log != []
    ensures var n := |log| - 1;
            MetUncertain(log, m) <==> MetUncertain(log[..n], m) || (log[n].message == m && Uncertain(log[n]))
  {
    var n := |log| - 1;
    if MetUncertain(log[..n], m) {
      var i :| 0 <= i < n && log[..n][i].message == m && m.receipt.Some? &&
               (if m.receipt.value in log[..n][i].leases.receipts
                then log[..n][i].leases.receipts[m.receipt.value].expiresAt else 0) <= log[..n][i].now + 5000;
      assert log[i].message == m;
    }
    if MetUncertain(log, m) {
      var i :| 0 <= i < |log| && log[i].message == m && m.receipt.Some? &&
               (if m.receipt.value in log[i].leases.receipts
                then log[i].leases.receipts[m.receipt.value].expiresAt else 0) <= log[i].now + 5000;
      assert i < n ==> log[..n][i].message == m;
    }
    assert log[n].message == m ==> (log[n].message == m && 0 <= n < |log|);
  }

  /** The messages of the tenant, by their places. */
  lemma {:induction false} OfTenantCounts(messages: seq<Message>, t: TenantId)
    ensures OfTenant(messages, t) == |set i | 0 <= i < |messages| && messages[i].tenant == Some(t)|
  {
    var places := set i | 0 <= i < |messages| && messages[i].tenant == Some(t);
    if messages == [] {
      assert places == {};
    } else {
      var n := |messages| - 1;
      OfTenantCounts(messages[..n], t);
      var before := set i | 0 <= i < |messages[..n]| && messages[..n][i].tenant == Some(t);
      assert places == if messages[n].tenant == Some(t) then before + {n} else before;
    }
  }

  /** At most ten messages of a tenant are handled, and only those of tenants that had ten are deferred. */
  lemma TurnsAreKept(log: seq<Turn>, t: TenantId)
    ensures var handled := PlaceAll(log).handled;
            var turns := |set i | 0 <= i < |handled| && handled[i].tenant == Some(t)|;
            turns <= 10 && forall m | m in PlaceAll(log).deferred && m.tenant == Some(t) :: turns == 10
    ensures forall m | m in PlaceAll(log).deferred :: m.tenant.Some?
  {
    TurnsCounted(log, t);
    OfTenantCounts(PlaceAll(log).handled, t);
    hide PlaceAll, OfTenant;
  }

  lemma {:induction false} TurnsCounted(log: seq<Turn>, t: TenantId)
    ensures OfTenant(PlaceAll(log).handled, t) <= 10
    ensures forall m | m in PlaceAll(log).deferred && m.tenant == Some(t) :: OfTenant(PlaceAll(log).handled, t) == 10
    ensures forall m | m in PlaceAll(log).deferred :: m.tenant.Some?
  {
    if log != [] {
      var front, a := log[..|log| - 1], log[|log| - 1];
      TurnsCounted(front, t);
      OfTenantAppend(PlaceAll(front).handled, a.message, t);
      hide Uncertain, OfTenant;
    }
  }

  /** Turn `i` handled the message, and its handling returned an acknowledgement. */
  predicate AcknowledgedAt(log: seq<Turn>, m: Message, i: nat) {
    i < |log| && log[i].message == m && m.receipt.Some? && log[i].handling.Acknowledges? &&
    |PlaceAll(log[..i + 1]).handled| > |PlaceAll(log[..i]).handled|
  }

  ghost predicate WasAcknowledged(log: seq<Turn>, m: Message) {
    exists i: nat :: AcknowledgedAt(log, m, i)
  }

  lemma AcknowledgedToo(log: seq<Turn>, m: Message)
    requires log != []
    ensures var n := |log| - 1; WasAcknowledged(log, m) <==> WasAcknowledged(log[..n], m) || AcknowledgedAt(log, m, n)
  {
    var before := log[..|log| - 1];
    forall i: nat | i < |before| ensures AcknowledgedAt(before, m, i) <==> AcknowledgedAt(log, m, i) {
      assert before[..i] == log[..i] && before[..i + 1] == log[..i + 1];
    }
    assert forall i: nat | AcknowledgedAt(log, m, i) :: i < |log|;
    assert forall i: nat | AcknowledgedAt(before, m, i) :: i < |before|;
    hide AcknowledgedAt;
  }

  /** Just the messages whose handling returned an acknowledgement are acknowledged. */
  lemma {:induction false} AcknowledgedIff(log: seq<Turn>, m: Message)
    ensures m in PlaceAll(log).acknowledged <==> WasAcknowledged(log, m)
  {
    if log != [] {
      var n := |log| - 1;
      AcknowledgedIff(log[..n], m);
      AcknowledgedToo(log, m);
      assert log[..n + 1] == log;
      hide Uncertain, OfTenant, WasAcknowledged;
    }
  }

  // ---- what a deferral counts ----

  /** The answer to the batch of place `i` confirms the entry of that place. */
  predicate Counts(answer: nat -> Option<BatchResult>, i: nat) {
    answer(i / 10).Some? && Some(IndexText(i % 10)) in answer(i / 10).value.successful &&
    Some(IndexText(i % 10)) !in answer(i / 10).value.failed
  }

  function CountUpTo(answer: nat -> Option<BatchResult>, lo: nat, hi: nat): nat {
    if lo >= hi then 0 else CountUpTo(answer, lo, hi - 1) + if Counts(answer, hi - 1) then 1 else 0
  }

  lemma {:induction false} CountsAdd(answer: nat -> Option<BatchResult>, lo: nat, mid: nat, hi: nat)
    requires lo <= mid <= hi
    ensures CountUpTo(answer, lo, hi) == CountUpTo(answer, lo, mid) + CountUpTo(answer, mid, hi)
    decreases hi
  {
    hide Counts;
    if mid < hi {
      CountsAdd(answer, lo, mid, hi - 1);
    }
  }

  lemma {:induction false} CountsPlaces(answer: nat -> Option<BatchResult>, n: nat, places: set<nat>)
    requires forall i: nat :: i in places <==> i < n && Counts(answer, i)
    ensures CountUpTo(answer, 0, n) == |places|
  {
    hide Counts;
    if n == 0 {
      assert places == {};
    } else {
      CountsPlaces(answer, n - 1, places - {n - 1});
      assert Counts(answer, n - 1) <==> n - 1 in places;
    }
  }

  lemma {:induction false} BatchCounts(receipts: seq<Receipt>, answer: nat -> Option<BatchResult>, b: nat)
    requires |receipts| <= 10 && forall i, j | 0 <= i < j < |receipts| :: receipts[i] != receipts[j]
    ensures CountUpTo(answer, 10 * b, 10 * b + |receipts|) ==
            if answer(b).Some? then |Confirmed(receipts, answer(b).value)| else 0
  {
    if receipts == [] {
      assert answer(b).Some? ==> Confirmed(receipts, answer(b).value) == {};
    } else {
      var n := |receipts| - 1;
      BatchCounts(receipts[..n], answer, b);
      assert (10 * b + n) / 10 == b && (10 * b + n) % 10 == n;
      if answer(b).Some? {
        ConfirmedOneMore(receipts, answer(b).value);
      }
      hide IndexText, Confirmed;
    }
  }

  lemma ConfirmedOneMore(receipts: seq<Receipt>, result: BatchResult)
    requires receipts != [] && forall i, j | 0 <= i < j < |receipts| :: receipts[i] != receipts[j]
    ensures var n := |receipts| - 1;
            |Confirmed(receipts, result)| ==
            |Confirmed(receipts[..n], result)| + if Confirms(result, n) then 1 else 0
  {
    hide Confirms;
    var n := |receipts| - 1;
    var front := receipts[..n];
    assert forall i | 0 <= i < n :: front[i] == receipts[i];
    assert Confirmed(receipts, result) ==
           if Confirms(result, n) then Confirmed(front, result) + {receipts[n]} else Confirmed(front, result);
  }

  lemma {:induction false} CountsByTens(receipts: seq<Receipt>, answer: nat -> Option<BatchResult>, b: nat)
    requires forall i, j | 0 <= i < j < |receipts| :: receipts[i] != receipts[j]
    ensures CountConfirmed(receipts, answer, b) == CountUpTo(answer, 10 * b, 10 * b + |receipts|)
    decreases |receipts|
  {
    if receipts != [] {
      var n := if |receipts| <= 10 then |receipts| else 10;
      BatchCounts(receipts[..n], answer, b);
      CountsByTens(receipts[n..], answer, b + 1);
      CountsAdd(answer, 10 * b, 10 * b + n, 10 * b + |receipts|);
      hide CountUpTo, Confirmed;
    }
  }

  /** The count of a deferral: the places whose entry, of the ten in the same call, the answer of that call confirms. */
  lemma DeferralCounts(receipts: seq<Receipt>, answer: nat -> Option<BatchResult>) returns (places: set<nat>)
    requires forall i, j | 0 <= i < j < |receipts| :: receipts[i] != receipts[j]
    ensures forall i: nat :: i in places <==>
              i < |receipts| && answer(i / 10).Some? &&
              Some(IndexText(i % 10)) in answer(i / 10).value.successful &&
              Some(IndexText(i % 10)) !in answer(i / 10).value.failed
    ensures CountConfirmed(receipts, answer, 0) == |places|
  {
    places := set i: nat | i < |receipts| && Counts(answer, i);
    CountsByTens(receipts, answer, 0);
    CountsPlaces(answer, |receipts|, places);
    hide CountConfirmed, CountUpTo, IndexText;
  }
}
