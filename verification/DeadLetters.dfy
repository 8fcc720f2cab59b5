/** What a dead letter and a call repeat of their delivery: over all runs the event and the destination, a dead letter
    also the tenant, and with one handler at a time the attempts and the error of the delivery that ended in it. */
module DeadLetters {
  import opened Store
  import opened Backoff
  import opened Pipeline
  import opened PipelineFrames
  import opened PipelineInvariant
  import opened PipelineSafety
  import opened Lifecycle

  // ---- destinations, over all runs ----

  /** A worker that found a row, or holds one, works for the destination of that row. */
  ghost predicate ProcAddress(s: State, p: Proc) {
    && (p.Worker? && p.phase.Writing? && p.phase.existing.Some? ==>
          p.phase.existing.value in s.db.deliveries && s.db.deliveries[p.phase.existing.value].url == p.url)
    && (Holds(p) ==>
          p.phase.claim.delivery in s.db.deliveries && s.db.deliveries[p.phase.claim.delivery].url == p.url)
  }

  ghost predicate LetterAddress(s: State, d: DeliveryId)
    requires d in s.db.deadLetters
  {
    d in s.db.deliveries && s.db.deadLetters[d].url == s.db.deliveries[d].url
  }

  ghost predicate Addresses(s: State) {
    && (forall d | d in s.db.deadLetters :: LetterAddress(s, d))
    && (forall pid | pid in s.procs :: ProcAddress(s, s.procs[pid]))
  }

  lemma AddressesStay(s: State, t: State)
    requires Addresses(s) && NoneTaken(s, t)
    ensures Addresses(t)
  {
    forall pid | pid in t.procs ensures ProcAddress(t, t.procs[pid]) {
      if Holds(t.procs[pid]) || ReadRow(t.procs[pid]) {
        assert ProcAddress(s, s.procs[pid]);
      }
    }
    forall d | d in t.db.deadLetters ensures LetterAddress(t, d) {
      assert LetterAddress(s, d);
    }
  }

  /** One worker moves on. */
  lemma AddressesMove(s: State, t: State, pid: Pid)
    requires Addresses(s) && pid in t.procs && t.procs == s.procs[pid := t.procs[pid]] && ProcAddress(t, t.procs[pid])
    requires forall d | d in s.db.deliveries ::
               d in t.db.deliveries && t.db.deliveries[d].url == s.db.deliveries[d].url
    requires forall d | d in t.db.deadLetters :: (d in s.db.deadLetters && Same(s, t, d)) || LetterAddress(t, d)
    ensures Addresses(t)
  {
    forall q | q in t.procs ensures ProcAddress(t, t.procs[q]) {
      if q != pid { assert ProcAddress(s, s.procs[q]); }
    }
    forall d | d in t.db.deadLetters ensures LetterAddress(t, d) {
      if d in s.db.deadLetters { assert LetterAddress(s, d); }
    }
  }

  predicate Same(s: State, t: State, d: DeliveryId)
    requires d in s.db.deadLetters && d in t.db.deadLetters
  {
    t.db.deadLetters[d].url == s.db.deadLetters[d].url
  }

  lemma ReadExistingAddresses(s: State, pid: Pid, found: Option<DeliveryId>)
    requires Addresses(s)
    ensures Addresses(ReadExistingStep(s, pid, found))
  {
    hide Addresses, LetterAddress;
    var t := ReadExistingStep(s, pid, found);
    if t != s { AddressesMove(s, t, pid); }
  }

  lemma WriteAttemptAddresses(s: State, pid: Pid, newId: DeliveryId)
    requires Addresses(s)
    ensures Addresses(WriteAttemptStep(s, pid, newId))
  {
    var t := WriteAttemptStep(s, pid, newId);
    if t != s {
      assert ProcAddress(s, s.procs[pid]);
      hide Addresses, LetterAddress;
      AddressesMove(s, t, pid);
    }
  }

  lemma BuryAddresses(s: State, pid: Pid)
    requires Addresses(s)
    ensures Addresses(BuryStep(s, pid))
  {
    var t := BuryStep(s, pid);
    if t != s {
      assert ProcAddress(s, s.procs[pid]);
      forall d | d in t.db.deadLetters && d !in s.db.deadLetters ensures LetterAddress(t, d) { }
      var d := s.procs[pid].phase.claim.delivery;
      assert d in s.db.deadLetters ==> LetterAddress(s, d);
      hide Addresses, Clip;
      AddressesMove(s, t, pid);
    }
  }

  lemma {:induction false} RunAddresses(c: Config, run: seq<Action>)
    ensures Addresses(Run(c, run))
  {
    if run != [] {
      var before, a := run[..|run| - 1], run[|run| - 1];
      RunAddresses(c, before);
      NextIs(c, Run(c, before), a);
      hide Addresses, Next, Run, ReadExistingStep, WriteAttemptStep, BuryStep;
      assert Run(c, run) == Next(c, Run(c, before), a) by { RunIs(c, run); }
      match a {
        case ReadExisting(pid, found) => ReadExistingAddresses(Run(c, before), pid, found);
        case WriteAttempt(pid, newId) => WriteAttemptAddresses(Run(c, before), pid, newId);
        case Bury(pid) => BuryAddresses(Run(c, before), pid);
        case _ =>
          OnlyThreeTake(c, Run(c, before), a);
          AddressesStay(Run(c, before), Next(c, Run(c, before), a));
      }
    }
  }

  lemma RunIs(c: Config, run: seq<Action>)
    requires run != []
    ensures Run(c, run) == Next(c, Run(c, run[..|run| - 1]), run[|run| - 1])
  {
  }

  // ---- where calls go ----

  /** The delivery `d` is one of the call's event to the call's destination. */
  predicate CallOf(s: State, p: Post, d: DeliveryId) {
    d in s.db.deliveries && s.db.deliveries[d].event == p.event && s.db.deliveries[d].url == p.url
  }

  ghost predicate Addressed(s: State, p: Post) {
    exists d :: CallOf(s, p, d)
  }

  ghost predicate AllAddressed(s: State) {
    forall p | p in s.posts :: Addressed(s, p)
  }

  /** A delivery keeps its event and its destination. */
  ghost predicate SameTargets(s: State, t: State) {
    forall d | d in s.db.deliveries ::
      d in t.db.deliveries && t.db.deliveries[d].event == s.db.deliveries[d].event &&
      t.db.deliveries[d].url == s.db.deliveries[d].url
  }

  lemma WriteAttemptTarget(s: State, pid: Pid, newId: DeliveryId)
    ensures SameTargets(s, WriteAttemptStep(s, pid, newId))
  {
    hide Clip;
  }

  lemma SucceedTarget(s: State, pid: Pid)
    ensures SameTargets(s, SucceedStep(s, pid))
  {
    hide Clip;
  }

  lemma RetryTarget(s: State, pid: Pid, next: int)
    ensures SameTargets(s, RetryStep(s, pid, next))
  {
    hide Clip;
  }

  lemma MarkDeadTarget(s: State, pid: Pid)
    ensures SameTargets(s, MarkDeadStep(s, pid))
  {
    hide Clip;
  }

  lemma WriteKeepsTargets(c: Config, s: State, a: Action)
    requires WritesDelivery(a)
    ensures SameTargets(s, Next(c, s, a))
  {
    assert a.WriteAttempt? || a.Succeed? || a.Retry? || a.MarkDead?;
    hide *;
    NextIs(c, s, a);
    match a {
      case WriteAttempt(pid, newId) => WriteAttemptTarget(s, pid, newId);
      case Succeed(pid) => SucceedTarget(s, pid);
      case Retry(pid, next) => RetryTarget(s, pid, next);
      case MarkDead(pid) => MarkDeadTarget(s, pid);
    }
  }

  lemma StepKeepsTargets(c: Config, s: State, a: Action)
    ensures SameTargets(s, Next(c, s, a))
  {
    hide Next;
    if WritesDelivery(a) {
      WriteKeepsTargets(c, s, a);
    } else {
      OnlyHandlersWrite(c, s, a);
    }
  }

  /** A worker calls for the delivery it holds. */
  lemma SenderHolds(s: State, pid: Pid)
    requires Addresses(s) && Inv(s) && AtPhase(s, pid) && s.procs[pid].phase.Sending? && s.procs[pid].body.Parsed?
    ensures var w := s.procs[pid]; var d := w.phase.claim.delivery;
            && d in s.db.deliveries && s.db.deliveries[d].event == w.body.message.event
            && s.db.deliveries[d].url == w.url
  {
    assert ProcAddress(s, s.procs[pid]) && ProcOk(s, s.procs[pid]);
    hide Inv, Addresses, HoldsPayload, Settled, Answered;
  }

  lemma CallAddressed(c: Config, s: State, a: Action)
    requires a.Call? && Addresses(s) && Inv(s) && AllAddressed(s)
    ensures AllAddressed(Next(c, s, a))
  {
    hide Next, Inv, Addresses;
    NextIs(c, s, a);
    var t := CallStep(s, a.pid, a.answered, a.seen, a.error);
    if AtPhase(s, a.pid) && s.procs[a.pid].phase.Sending? && s.procs[a.pid].body.Parsed? {
      SenderHolds(s, a.pid);
      var w := s.procs[a.pid];
      assert t.db == s.db && t.posts == s.posts + [t.posts[|s.posts|]];
      assert CallOf(t, t.posts[|s.posts|], w.phase.claim.delivery);
      hide CallStep;
      forall p | p in s.posts ensures Addressed(t, p) {
        assert Addressed(s, p);
        var d :| CallOf(s, p, d);
        assert CallOf(t, p, d);
      }
    }
  }

  /** Over all runs every call goes to the destination of a delivery of its event. */
  lemma {:induction false} CallsAreAddressed(c: Config, run: seq<Action>)
    ensures forall p | p in Run(c, run).posts :: exists d :: CallOf(Run(c, run), p, d)
    ensures AllAddressed(Run(c, run))
  {
    if run != [] {
      var before, a := run[..|run| - 1], run[|run| - 1];
      var s := Run(c, before);
      CallsAreAddressed(c, before);
      assert Run(c, run) == Next(c, s, a) by { RunIs(c, run); }
      hide Run, Next, Inv, Addresses;
      if a.Call? {
        RunAddresses(c, before);
        RunKeeps(c, before);
        CallAddressed(c, s, a);
      } else {
        PostsStay(c, s, a);
        StepKeepsTargets(c, s, a);
        forall p | p in s.posts ensures Addressed(Next(c, s, a), p) {
          assert Addressed(s, p);
          var d :| CallOf(s, p, d);
          assert CallOf(Next(c, s, a), p, d);
        }
      }
    }
  }

  // ---- attempts and errors, with one handler at a time ----

  /** The dead letter records `attempts` and `error`. */
  ghost predicate Tells(s: State, d: DeliveryId, attempts: nat, error: Option<string>) {
    d in s.db.deadLetters && s.db.deadLetters[d].attempts == attempts && s.db.deadLetters[d].lastError == error
  }

  ghost predicate RowTold(s: State, d: DeliveryId)
    requires d in s.db.deliveries
  {
    s.db.deliveries[d].status == DEAD_LETTERED ==>
      Tells(s, d, s.db.deliveries[d].attempts, s.db.deliveries[d].lastError)
  }

  ghost predicate ProcTold(s: State, p: Proc) {
    p.Worker? && p.phase.Marking? ==>
      Tells(s, p.phase.claim.delivery, p.phase.claim.attempts, Some(Clip(p.phase.error)))
  }

  /** What a handler is about to record is in the dead letter, and so is what it recorded. */
  ghost predicate Told(s: State) {
    && (forall d | d in s.db.deliveries :: RowTold(s, d))
    && (forall pid | pid in s.procs :: ProcTold(s, s.procs[pid]))
  }

  /** No dead letter is written, no worker comes to Marking, and a row that is dead-lettered now was so, or is told. */
  lemma ToldKept(s: State, t: State)
    requires Told(s) && t.db.deadLetters == s.db.deadLetters
    requires forall q | q in t.procs && t.procs[q].Worker? && t.procs[q].phase.Marking? ::
               q in s.procs && s.procs[q] == t.procs[q]
    requires forall d | d in t.db.deliveries && t.db.deliveries[d].status == DEAD_LETTERED ::
               (d in s.db.deliveries && s.db.deliveries[d] == t.db.deliveries[d]) || RowTold(t, d)
    ensures Told(t)
  {
    forall d | d in t.db.deliveries && t.db.deliveries[d].status == DEAD_LETTERED ensures RowTold(t, d) {
      if d in s.db.deliveries && s.db.deliveries[d] == t.db.deliveries[d] { assert RowTold(s, d); }
    }
    forall q | q in t.procs && t.procs[q].Worker? && t.procs[q].phase.Marking? ensures ProcTold(t, t.procs[q]) {
      assert ProcTold(s, s.procs[q]);
    }
  }

  lemma ToldStays(s: State, t: State)
    requires Told(s) && NoneTaken(s, t) && t.db.deliveries == s.db.deliveries
    ensures Told(t)
  {
    hide Told;
    ToldKept(s, t);
  }

  lemma ReadExistingTold(s: State, pid: Pid, found: Option<DeliveryId>)
    requires Told(s)
    ensures Told(ReadExistingStep(s, pid, found))
  {
    hide Told, IsFirst;
    ToldKept(s, ReadExistingStep(s, pid, found));
  }

  lemma WriteAttemptTold(s: State, pid: Pid, newId: DeliveryId)
    requires Told(s)
    ensures Told(WriteAttemptStep(s, pid, newId))
  {
    hide Told;
    var t := WriteAttemptStep(s, pid, newId);
    if t != s {
      var d := t.procs[pid].phase.claim.delivery;
      assert t.db.deliveries == s.db.deliveries[d := t.db.deliveries[d]] && t.db.deliveries[d].status == IN_FLIGHT;
      assert t.db.deadLetters == s.db.deadLetters && t.procs == s.procs[pid := t.procs[pid]];
      assert t.procs[pid].phase.Preparing?;
      hide WriteAttemptStep, RowTold;
      ToldKept(s, t);
    }
  }

  lemma SucceedTold(s: State, pid: Pid)
    requires Told(s)
    ensures Told(SucceedStep(s, pid))
  {
    hide Told;
    ToldKept(s, SucceedStep(s, pid));
  }

  lemma RetryTold(s: State, pid: Pid, next: int)
    requires Told(s)
    ensures Told(RetryStep(s, pid, next))
  {
    hide Told, Clip;
    ToldKept(s, RetryStep(s, pid, next));
  }

  lemma MarkDeadTold(c: Config, s: State, pid: Pid)
    requires Told(s) && Life(c, s)
    ensures Told(MarkDeadStep(s, pid))
  {
    var t := MarkDeadStep(s, pid);
    if t != s {
      assert ProcTold(s, s.procs[pid]) && ProcLife(c, s, s.procs[pid]);
      hide Told, Life, Clip, NoTerminal;
      ToldKept(s, t);
    }
  }

  /** A dead letter is written only while its delivery is in flight, and only by its one handler. */
  lemma BuryTold(c: Config, s: State, pid: Pid)
    requires Told(s) && Life(c, s) && OneHandler(s)
    ensures Told(BuryStep(s, pid))
  {
    hide Life, OneHandler, Clip, RowTold, ProcTold;
    var t := BuryStep(s, pid);
    if t != s {
      forall x | x in t.db.deliveries ensures RowTold(t, x) {
        BuryRowTold(c, s, pid, x);
      }
      forall q | q in t.procs ensures ProcTold(t, t.procs[q]) {
        BuryProcTold(c, s, pid, q);
      }
    }
  }

  lemma BuryRowTold(c: Config, s: State, pid: Pid, x: DeliveryId)
    requires Told(s) && Life(c, s) && BuryStep(s, pid) != s && x in BuryStep(s, pid).db.deliveries
    ensures RowTold(BuryStep(s, pid), x)
  {
    assert ProcLife(c, s, s.procs[pid]) && RowTold(s, x);
    hide Told, Life, Clip, NoTerminal, ExistingLife;
  }

  lemma BuryProcTold(c: Config, s: State, pid: Pid, q: Pid)
    requires Told(s) && Life(c, s) && OneHandler(s) && BuryStep(s, pid) != s && q in BuryStep(s, pid).procs
    ensures ProcTold(BuryStep(s, pid), BuryStep(s, pid).procs[q])
  {
    var t := BuryStep(s, pid);
    hide Told, Life, OneHandler, Clip;
    if q != pid && t.procs[q].Worker? && t.procs[q].phase.Marking? {
      OtherMarking(c, s, t, pid, q);
    }
  }

  lemma Apart(c: Config, s: State, p: Pid, q: Pid, d: DeliveryId)
    requires Life(c, s) && OneHandler(s) && HoldsAt(s, p, d) && p != q
    ensures !HoldsAt(s, q, d)
  {
    hide Life, OneHandler;
    if HoldsAt(s, q, d) {
      SoleHolder(c, s, p, q, d);
    }
  }

  lemma OtherMarking(c: Config, s: State, t: State, pid: Pid, q: Pid)
    requires Told(s) && Life(c, s) && OneHandler(s) && t == BuryStep(s, pid) && t != s
    requires q != pid && q in t.procs && t.procs[q].Worker? && t.procs[q].phase.Marking?
    ensures ProcTold(t, t.procs[q])
  {
    assert ProcTold(s, s.procs[q]);
    hide Told, Life, OneHandler, Clip;
    var d := s.procs[pid].phase.claim.delivery;
    assert HoldsAt(s, pid, d);
    Apart(c, s, pid, q, d);
  }

  lemma OtherTold(c: Config, s: State, a: Action)
    requires Told(s) && !Takes(a) && !WritesDelivery(a)
    ensures Told(Next(c, s, a))
  {
    hide *;
    OnlyThreeTake(c, s, a);
    OnlyHandlersWrite(c, s, a);
    ToldStays(s, Next(c, s, a));
  }

  lemma WriteTold(c: Config, s: State, a: Action)
    requires Told(s) && Life(c, s) && WritesDelivery(a)
    ensures Told(Next(c, s, a))
  {
    assert a.WriteAttempt? || a.Succeed? || a.Retry? || a.MarkDead?;
    hide *;
    NextIs(c, s, a);
    match a {
      case WriteAttempt(pid, newId) => WriteAttemptTold(s, pid, newId);
      case Succeed(pid) => SucceedTold(s, pid);
      case Retry(pid, next) => RetryTold(s, pid, next);
      case MarkDead(pid) => MarkDeadTold(c, s, pid);
    }
  }

  lemma NextTold(c: Config, s: State, a: Action)
    requires Told(s) && Life(c, s) && OneHandler(s)
    ensures Told(Next(c, s, a))
  {
    assert Takes(a) <==> a.ReadExisting? || a.WriteAttempt? || a.Bury?;
    assert a.WriteAttempt? ==> WritesDelivery(a);
    hide *;
    if WritesDelivery(a) {
      WriteTold(c, s, a);
    } else if !Takes(a) {
      OtherTold(c, s, a);
    } else if a.Bury? {
      NextIs(c, s, a);
      BuryTold(c, s, a.pid);
    } else {
      NextIs(c, s, a);
      ReadExistingTold(s, a.pid, a.found);
    }
  }

  lemma {:induction false} RunTold(c: Config, run: seq<Action>)
    requires OneHandlerThroughout(c, run)
    ensures Told(Run(c, run))
  {
    if run != [] {
      var before := run[..|run| - 1];
      assert OneHandlerThroughout(c, before) by {
        forall n | 0 <= n <= |before| ensures OneHandler(Run(c, before[..n])) {
          assert before[..n] == run[..n];
        }
      }
      RunTold(c, before);
      RunLife(c, before);
      assert run[..|before|] == before;
      NextTold(c, Run(c, before), run[|run| - 1]);
    }
  }

  // ---- what a dead letter says ----

  /** Over all runs a dead letter names the event, the tenant and the destination of its delivery. */
  lemma LetterNamesDelivery(c: Config, run: seq<Action>, d: DeliveryId)
    requires d in Run(c, run).db.deadLetters
    ensures var db := Run(c, run).db;
            && d in db.deliveries
            && db.deadLetters[d].event == db.deliveries[d].event && db.deadLetters[d].tenant == db.deliveries[d].tenant
            && db.deadLetters[d].url == db.deliveries[d].url
  {
    RunKeeps(c, run);
    RunAddresses(c, run);
    assert LetterAddress(Run(c, run), d);
    hide Run, EventsOk, ArchiveOk, OutboxOk, QueueOk, DeliveriesOk, ReplaysOk, HoldsPayload;
  }

  /** With one handler at a time the dead letter of a dead-lettered delivery also has its attempts and its error. */
  lemma LetterTellsOutcome(c: Config, run: seq<Action>, d: DeliveryId)
    requires OneHandlerThroughout(c, run)
    requires d in Run(c, run).db.deliveries && Run(c, run).db.deliveries[d].status == DEAD_LETTERED
    ensures var db := Run(c, run).db;
            && d in db.deadLetters
            && db.deadLetters[d].event == db.deliveries[d].event && db.deadLetters[d].tenant == db.deliveries[d].tenant
            && db.deadLetters[d].url == db.deliveries[d].url
            && db.deadLetters[d].attempts == db.deliveries[d].attempts
            && db.deadLetters[d].lastError == db.deliveries[d].lastError && db.deliveries[d].lastError.Some?
  {
    RunTold(c, run);
    assert RowTold(Run(c, run), d);
    LetterNamesDelivery(c, run, d);
    DeliveryRecords(c, run, d);
    hide Run;
  }

  // ---- when they agree with any number of handlers ----

  ghost predicate Agrees(s: State, d: DeliveryId) {
    d in s.db.deliveries && RowTold(s, d)
  }

  /** The next write of a worker makes the dead letter of `d` differ from its delivery: it is about to record another
      error in a delivery than its dead letter has, or to overwrite the dead letter of one that has ended. */
  ghost predicate Parts(s: State, pid: Pid, d: DeliveryId)
    requires d in s.db.deliveries
  {
    pid in s.procs && s.procs[pid].Worker? &&
    var row := s.db.deliveries[d];
    match s.procs[pid].phase
    case Marking(claim, error) => claim.delivery == d && !Tells(s, d, row.attempts, Some(Clip(error)))
    case Burying(claim, error, key) =>
      claim.delivery == d && row.status == DEAD_LETTERED &&
      !(row.attempts == claim.attempts && row.lastError == Some(Clip(error)))
    case _ => false
  }

  lemma MarkDeadParts(s: State, pid: Pid, d: DeliveryId)
    requires Agrees(s, d)
    ensures !Agrees(MarkDeadStep(s, pid), d) <==> Parts(s, pid, d) && s.procs[pid].phase.Marking?
  {
    hide Clip;
  }

  lemma BuryWrites(s: State, pid: Pid, d: DeliveryId)
    ensures var t := BuryStep(s, pid);
            && t.db.deliveries == s.db.deliveries
            && (t != s ==> AtPhase(s, pid) && s.procs[pid].phase.Burying?)
            && (AtPhase(s, pid) && s.procs[pid].phase.Burying? ==>
                  var phase := s.procs[pid].phase;
                  && (phase.claim.delivery == d ==>
                        Tells(t, d, phase.claim.attempts, Some(Clip(phase.error))))
                  && (phase.claim.delivery != d ==>
                        (d in t.db.deadLetters <==> d in s.db.deadLetters) &&
                        (d in s.db.deadLetters ==> t.db.deadLetters[d] == s.db.deadLetters[d])))
  {
    hide Clip;
  }

  lemma BuryParts(s: State, pid: Pid, d: DeliveryId)
    requires Agrees(s, d)
    ensures !Agrees(BuryStep(s, pid), d) <==> Parts(s, pid, d) && s.procs[pid].phase.Burying?
  {
    BuryWrites(s, pid, d);
    hide BuryStep, Clip;
  }

  /** The other writes of a delivery leave it open, or succeeded, or failed. */
  lemma OtherWritesAgree(c: Config, s: State, a: Action, d: DeliveryId)
    requires Agrees(s, d) && (a.WriteAttempt? || a.Succeed? || a.Retry?)
    ensures Agrees(Next(c, s, a), d)
  {
    NextIs(c, s, a);
    WriteAttemptOpens(s, a);
    hide Next, Clip, WriteAttemptStep;
  }

  lemma WriteAttemptOpens(s: State, a: Action)
    ensures a.WriteAttempt? ==>
              var t := WriteAttemptStep(s, a.pid, a.newId);
              && t.db.deadLetters == s.db.deadLetters
              && forall d | d in s.db.deliveries ::
                   d in t.db.deliveries &&
                   (t.db.deliveries[d] == s.db.deliveries[d] || t.db.deliveries[d].status == IN_FLIGHT)
  {
  }

  lemma SameAgrees(s: State, t: State, d: DeliveryId)
    requires Agrees(s, d) && t.db.deliveries == s.db.deliveries && t.db.deadLetters == s.db.deadLetters
    ensures Agrees(t, d)
  {
  }

  lemma ReadExistingAgrees(s: State, pid: Pid, found: Option<DeliveryId>)
    ensures var t := ReadExistingStep(s, pid, found);
            t.db.deliveries == s.db.deliveries && t.db.deadLetters == s.db.deadLetters
  {
  }

  lemma TakesNoLetter(s: State, t: State)
    requires NoneTaken(s, t)
    ensures t.db.deadLetters == s.db.deadLetters
  {
  }

  lemma StillAgrees(c: Config, s: State, a: Action, d: DeliveryId)
    requires Agrees(s, d) && !a.MarkDead? && !a.Bury?
    ensures Agrees(Next(c, s, a), d)
  {
    assert Takes(a) <==> a.ReadExisting? || a.WriteAttempt? || a.Bury?;
    assert WritesDelivery(a) <==> a.WriteAttempt? || a.Succeed? || a.Retry? || a.MarkDead?;
    hide *;
    if a.ReadExisting? {
      NextIs(c, s, a);
      ReadExistingAgrees(s, a.pid, a.found);
      SameAgrees(s, Next(c, s, a), d);
    } else if WritesDelivery(a) {
      OtherWritesAgree(c, s, a, d);
    } else {
      OnlyThreeTake(c, s, a);
      OnlyHandlersWrite(c, s, a);
      TakesNoLetter(s, Next(c, s, a));
      SameAgrees(s, Next(c, s, a), d);
    }
  }

  /** In any state in which they agree: every next step keeps the dead letter in agreement with its delivery if and
      only if no worker is about to part them. */
  lemma AgreementKeptIff(c: Config, s: State, d: DeliveryId)
    requires Agrees(s, d)
    ensures (forall a :: Agrees(Next(c, s, a), d)) <==> forall pid :: !Parts(s, pid, d)
  {
    if pid :| Parts(s, pid, d) {
      var a := if s.procs[pid].phase.Marking? then MarkDead(pid) else Bury(pid);
      assert s.procs[pid].phase.Marking? || s.procs[pid].phase.Burying?;
      hide *;
      MarkDeadParts(s, pid, d);
      BuryParts(s, pid, d);
      NextIs(c, s, a);
      assert !Agrees(Next(c, s, a), d);
    } else {
      forall a ensures Agrees(Next(c, s, a), d) {
        hide *;
        if a.MarkDead? || a.Bury? {
          MarkDeadParts(s, a.pid, d);
          BuryParts(s, a.pid, d);
          NextIs(c, s, a);
        } else {
          StillAgrees(c, s, a, d);
        }
      }
    }
  }
}
