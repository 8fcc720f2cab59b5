/** The life of a delivery when one handler at a time works on it, as in a single worker process,
    which awaits handleMessage for one message after the other (worker/src/index.ts:518-547).
    Acknowledgements may still overlap. */
module Lifecycle {
  import opened Store
  import opened Backoff
  import opened Pipeline
  import opened PipelineFrames
  import opened PipelineInvariant
  import opened PipelineSafety

  /** A worker between receiving the message and recording its outcome. */
  predicate Active(p: Proc) {
    p.Worker? && p.body.Parsed? && !p.phase.Acknowledging? && !p.phase.Deferring?
  }

  predicate SameDelivery(p: Proc, q: Proc)
    requires Active(p) && Active(q)
  {
    p.body.message.event == q.body.message.event && p.url == q.url
  }

  ghost predicate OneHandler(s: State) {
    forall p, q | p in s.procs && q in s.procs && p != q && Active(s.procs[p]) && Active(s.procs[q]) ::
      !SameDelivery(s.procs[p], s.procs[q])
  }

  predicate Terminal(status: Status) {
    status == SUCCEEDED || status == DEAD_LETTERED
  }

  ghost predicate Held(s: State, d: DeliveryId) {
    exists pid :: HoldsAt(s, pid, d)
  }

  ghost predicate HoldsAt(s: State, pid: Pid, d: DeliveryId) {
    pid in s.procs && Holds(s.procs[pid]) && s.procs[pid].phase.claim.delivery == d
  }

  /** The attempts of `d` that ended in FAILED: all but the interrupted ones and the last one. */
  function Ended(s: State, d: DeliveryId): int
    requires d in s.db.deliveries
  {
    s.db.deliveries[d].attempts - Interruptions(s, d)
  }

  ghost predicate RowLife(c: Config, s: State, d: DeliveryId)
    requires d in s.db.deliveries
  {
    var row := s.db.deliveries[d];
    && row.status != PENDING
    && (row.nextAttemptAt.Some? <==> row.status == FAILED)
    && (row.lastError.Some? <==> row.status == FAILED || row.status == DEAD_LETTERED)
    && (Terminal(row.status) ==> 1 <= Ended(s, d) <= Limit(c.maxAttempts) && !Held(s, d))
    && (row.status == FAILED ==> 1 <= Ended(s, d) < Limit(c.maxAttempts) && !Held(s, d))
    && (row.status == IN_FLIGHT && Held(s, d) ==> 1 <= Ended(s, d) <= Limit(c.maxAttempts))
    && (row.status == IN_FLIGHT && !Held(s, d) ==> Interruptions(s, d) >= 1 && 0 <= Ended(s, d) < Limit(c.maxAttempts))
  }

  ghost predicate NoTerminal(s: State, event: EventId, url: string) {
    forall d | d in s.db.deliveries && Matches(s.db.deliveries[d], event, url) :: !Terminal(s.db.deliveries[d].status)
  }

  ghost predicate NoRow(s: State, event: EventId, url: string) {
    forall d | d in s.db.deliveries :: !Matches(s.db.deliveries[d], event, url)
  }

  ghost predicate ProcLife(c: Config, s: State, p: Proc) {
    && (Active(p) && (p.phase.Upserting? || p.phase.Writing?) ==> NoTerminal(s, p.body.message.event, p.url))
    && (Active(p) && p.phase.Writing? ==> ExistingLife(s, p))
    && (Holds(p) ==> Active(p) && HoldsRow(c, s, p))
  }

  ghost predicate ExistingLife(s: State, p: Proc)
    requires Active(p) && p.phase.Writing?
  {
    match p.phase.existing
    case None => NoRow(s, p.body.message.event, p.url)
    case Some(d) => d in s.db.deliveries && Matches(s.db.deliveries[d], p.body.message.event, p.url)
  }

  ghost predicate HoldsRow(c: Config, s: State, p: Proc)
    requires Active(p) && Holds(p)
  {
    && p.phase.claim.delivery in s.db.deliveries
    && var row := s.db.deliveries[p.phase.claim.delivery];
    && Matches(row, p.body.message.event, p.url)
    && row.status == IN_FLIGHT
    && row.attempts == p.phase.claim.attempts
    && (p.phase.Retrying? ==> row.attempts < Limit(c.maxAttempts))
  }

  ghost predicate OneRow(s: State) {
    forall d, x | d in s.db.deliveries && x in s.db.deliveries &&
      Matches(s.db.deliveries[x], s.db.deliveries[d].event, s.db.deliveries[d].url) :: d == x
  }

  ghost predicate Life(c: Config, s: State) {
    && OneRow(s)
    && s.interrupted.Keys <= s.db.deliveries.Keys
    && (forall d | d in s.db.deliveries :: RowLife(c, s, d))
    && (forall pid | pid in s.procs :: ProcLife(c, s, s.procs[pid]))
  }

  // ---- what a step can do ----

  /** All processes but `pid` are as they were. */
  ghost predicate OthersSame(s: State, t: State, pid: Pid) {
    forall q | q != pid :: (q in s.procs <==> q in t.procs) && (q in s.procs ==> s.procs[q] == t.procs[q])
  }

  lemma HeldFrame(s: State, t: State, pid: Pid, d: DeliveryId)
    requires OthersSame(s, t, pid) && (HoldsAt(s, pid, d) <==> HoldsAt(t, pid, d))
    ensures Held(s, d) <==> Held(t, d)
  {
    if Held(s, d) {
      var q :| HoldsAt(s, q, d);
      assert HoldsAt(t, q, d);
    }
    if Held(t, d) {
      var q :| HoldsAt(t, q, d);
      assert HoldsAt(s, q, d);
    }
  }

  /** No delivery row changed, and `pid` neither took nor gave up a delivery. */
  lemma QuietLife(c: Config, s: State, t: State, pid: Pid)
    requires Life(c, s) && OthersSame(s, t, pid)
    requires t.db.deliveries == s.db.deliveries && t.interrupted == s.interrupted
    requires forall d :: HoldsAt(s, pid, d) <==> HoldsAt(t, pid, d)
    requires pid in t.procs ==> ProcLife(c, s, t.procs[pid])
    ensures Life(c, t)
  {
    forall d | d in t.db.deliveries ensures RowLife(c, t, d) {
      HeldFrame(s, t, pid, d);
    }
    forall q | q in t.procs ensures ProcLife(c, t, t.procs[q]) {
      assert ProcLife(c, s, t.procs[q]);
    }
  }

  /** The handler `pid` wrote the row `d` of its own event and destination. */
  lemma WriteLife(c: Config, s: State, t: State, pid: Pid, d: DeliveryId, row: DeliveryRow)
    requires Life(c, s) && OneHandler(s) && OthersSame(s, t, pid)
    requires pid in s.procs && Active(s.procs[pid]) && pid in t.procs
    requires Matches(row, s.procs[pid].body.message.event, s.procs[pid].url)
    requires if d in s.db.deliveries then Matches(s.db.deliveries[d], row.event, row.url)
             else NoRow(s, row.event, row.url)
    requires t.db.deliveries == s.db.deliveries[d := row] && t.interrupted == s.interrupted
    requires forall x | x != d :: !HoldsAt(s, pid, x) && !HoldsAt(t, pid, x)
    requires RowLife(c, t, d) && ProcLife(c, t, t.procs[pid])
    ensures Life(c, t)
  {
    forall x | x in t.db.deliveries ensures RowLife(c, t, x) {
      if x != d { HeldFrame(s, t, pid, x); }
    }
    forall q | q in t.procs ensures ProcLife(c, t, t.procs[q]) {
      if q != pid { OtherLife(c, s, t, pid, q, d, row); }
    }
    RowsAfterWrite(s, t, d, row);
  }

  lemma RowsAfterWrite(s: State, t: State, d: DeliveryId, row: DeliveryRow)
    requires OneRow(s) && t.db.deliveries == s.db.deliveries[d := row]
    requires if d in s.db.deliveries then Matches(s.db.deliveries[d], row.event, row.url)
             else NoRow(s, row.event, row.url)
    ensures OneRow(t)
  {
  }

  lemma OtherLife(c: Config, s: State, t: State, pid: Pid, q: Pid, d: DeliveryId, row: DeliveryRow)
    requires OneHandler(s) && OthersSame(s, t, pid)
    requires q in s.procs && q != pid && ProcLife(c, s, s.procs[q])
    requires pid in s.procs && Active(s.procs[pid]) && Matches(row, s.procs[pid].body.message.event, s.procs[pid].url)
    requires d in s.db.deliveries ==> Matches(s.db.deliveries[d], row.event, row.url)
    requires t.db.deliveries == s.db.deliveries[d := row]
    ensures ProcLife(c, t, t.procs[q])
  {
    if Active(s.procs[q]) {
      assert !SameDelivery(s.procs[q], s.procs[pid]);
    }
  }

  // ---- the steps ----

  lemma WriteAttemptLife(c: Config, s: State, pid: Pid, newId: DeliveryId)
    requires Life(c, s) && OneHandler(s) && WriteAttemptStep(s, pid, newId) != s
    ensures Life(c, WriteAttemptStep(s, pid, newId))
  {
    hide OneHandler, OneRow;
    var t := WriteAttemptStep(s, pid, newId);
    var w := s.procs[pid];
    assert ProcLife(c, s, w) && Active(w);
    var d := t.procs[pid].phase.claim.delivery;
    assert HoldsAt(t, pid, d);
    if d in s.db.deliveries {
      assert RowLife(c, s, d);
      NotHeld(c, s, pid, d);
    }
    WriteLife(c, s, t, pid, d, t.db.deliveries[d]);
  }

  /** The only handler of a delivery does not find it held by another one. */
  lemma NotHeld(c: Config, s: State, pid: Pid, d: DeliveryId)
    requires Life(c, s) && OneHandler(s)
    requires pid in s.procs && Active(s.procs[pid]) && !Holds(s.procs[pid])
    requires d in s.db.deliveries && Matches(s.db.deliveries[d], s.procs[pid].body.message.event, s.procs[pid].url)
    ensures !Held(s, d)
  {
    forall q | q in s.procs && Holds(s.procs[q]) ensures s.procs[q].phase.claim.delivery != d {
      assert ProcLife(c, s, s.procs[q]);
      assert !SameDelivery(s.procs[q], s.procs[pid]);
    }
  }

  lemma SoleHolder(c: Config, s: State, p: Pid, q: Pid, d: DeliveryId)
    requires Life(c, s) && OneHandler(s) && HoldsAt(s, p, d) && HoldsAt(s, q, d)
    ensures p == q
  {
    assert ProcLife(c, s, s.procs[p]) && ProcLife(c, s, s.procs[q]);
    assert SameDelivery(s.procs[p], s.procs[q]);
  }

  /** Nobody holds the delivery once its only handler has let it go. */
  lemma Released(c: Config, s: State, t: State, pid: Pid, d: DeliveryId)
    requires Life(c, s) && OneHandler(s) && OthersSame(s, t, pid)
    requires HoldsAt(s, pid, d) && !HoldsAt(t, pid, d)
    ensures !Held(t, d)
  {
    forall q ensures !HoldsAt(t, q, d) {
      if HoldsAt(s, q, d) { SoleHolder(c, s, pid, q, d); }
    }
  }

  /** markSucceeded, markFailed and markDeadLettered end the handler's hold on the delivery. */
  lemma RecordLife(c: Config, s: State, t: State, pid: Pid, row: DeliveryRow)
    requires Life(c, s) && OneHandler(s) && OthersSame(s, t, pid)
    requires pid in s.procs && Holds(s.procs[pid]) && pid in t.procs && t.procs[pid].Worker?
    requires t.procs[pid].phase.Acknowledging? || t.procs[pid].phase.Deferring?
    requires var d := s.procs[pid].phase.claim.delivery;
             && d in s.db.deliveries && t.db.deliveries == s.db.deliveries[d := row] && t.interrupted == s.interrupted
             && row.event == s.db.deliveries[d].event && row.url == s.db.deliveries[d].url
             && row.attempts == s.db.deliveries[d].attempts
    requires row.status == FAILED || Terminal(row.status)
    requires row.status == FAILED ==> s.procs[pid].phase.Retrying?
    requires row.nextAttemptAt.Some? <==> row.status == FAILED
    requires row.lastError.Some? <==> row.status == FAILED || row.status == DEAD_LETTERED
    ensures Life(c, t)
  {
    hide OneHandler, OneRow;
    assert ProcLife(c, s, s.procs[pid]);
    var d := s.procs[pid].phase.claim.delivery;
    assert RowLife(c, s, d);
    assert HoldsAt(s, pid, d);
    Released(c, s, t, pid, d);
    WriteLife(c, s, t, pid, d, row);
  }

  lemma SucceedLife(c: Config, s: State, pid: Pid)
    requires Life(c, s) && OneHandler(s) && SucceedStep(s, pid) != s
    ensures Life(c, SucceedStep(s, pid))
  {
    hide Life, OneHandler;
    HeldRowFacts(c, s, pid);
    var t := SucceedStep(s, pid);
    RecordLife(c, s, t, pid, t.db.deliveries[s.procs[pid].phase.claim.delivery]);
  }

  lemma RetryLife(c: Config, s: State, pid: Pid, next: int)
    requires Life(c, s) && OneHandler(s) && RetryStep(s, pid, next) != s
    ensures Life(c, RetryStep(s, pid, next))
  {
    hide Life, OneHandler;
    var t := RetryStep(s, pid, next);
    RecordLife(c, s, t, pid, t.db.deliveries[s.procs[pid].phase.claim.delivery]);
  }

  lemma MarkDeadLife(c: Config, s: State, pid: Pid)
    requires Life(c, s) && OneHandler(s) && MarkDeadStep(s, pid) != s
    ensures Life(c, MarkDeadStep(s, pid))
  {
    hide Life, OneHandler;
    var t := MarkDeadStep(s, pid);
    RecordLife(c, s, t, pid, t.db.deliveries[s.procs[pid].phase.claim.delivery]);
  }

  lemma HeldRowFacts(c: Config, s: State, pid: Pid)
    requires Life(c, s) && pid in s.procs && Holds(s.procs[pid]) && s.procs[pid].phase.claim.delivery in s.db.deliveries
    ensures s.db.deliveries[s.procs[pid].phase.claim.delivery].nextAttemptAt == None
  {
    hide OneRow, Held, ExistingLife, NoTerminal;
    assert ProcLife(c, s, s.procs[pid]);
    assert RowLife(c, s, s.procs[pid].phase.claim.delivery);
  }

  lemma CrashLife(c: Config, s: State, pid: Pid)
    requires Life(c, s) && OneHandler(s)
    ensures Life(c, CrashStep(s, pid))
  {
    var t := CrashStep(s, pid);
    if pid in s.procs {
      var p := s.procs[pid];
      assert ProcLife(c, s, p);
      if Holds(p) {
        InterruptedLife(c, s, t, pid);
      } else {
        QuietLife(c, s, t, pid);
      }
    }
  }

  lemma InterruptedLife(c: Config, s: State, t: State, pid: Pid)
    requires Life(c, s) && OneHandler(s) && pid in s.procs && Holds(s.procs[pid]) && t == CrashStep(s, pid)
    ensures Life(c, t)
  {
    hide OneHandler, RowLife;
    var p := s.procs[pid];
    assert ProcLife(c, s, p);
    forall x | x in t.db.deliveries ensures RowLife(c, t, x) {
      InterruptedRow(c, s, t, pid, x);
    }
    forall q | q in t.procs ensures ProcLife(c, t, t.procs[q]) {
      assert ProcLife(c, s, s.procs[q]);
    }
  }

  lemma InterruptedRow(c: Config, s: State, t: State, pid: Pid, x: DeliveryId)
    requires Life(c, s) && OneHandler(s) && pid in s.procs && Holds(s.procs[pid]) && t == CrashStep(s, pid)
    requires x in t.db.deliveries
    ensures RowLife(c, t, x)
  {
    hide OneHandler, OneRow, NoTerminal, ExistingLife, Held;
    assert ProcLife(c, s, s.procs[pid]);
    var d := s.procs[pid].phase.claim.delivery;
    assert HoldsAt(s, pid, d) && RowLife(c, s, x);
    assert Held(s, d) by { HeldIf(s, pid, d); }
    if x == d {
      Released(c, s, t, pid, d);
    } else {
      HeldFrame(s, t, pid, x);
    }
  }

  lemma HeldIf(s: State, pid: Pid, d: DeliveryId)
    requires HoldsAt(s, pid, d)
    ensures Held(s, d)
  {
  }

  /** The lookup lets a handler through only to a delivery that is not terminal. */
  lemma LookupLife(c: Config, s: State, pid: Pid, found: Option<DeliveryId>, now: int)
    requires Life(c, s) && LookupStep(s, pid, found, now) != s
    ensures Life(c, LookupStep(s, pid, found, now))
  {
    QuietLife(c, s, LookupStep(s, pid, found, now), pid);
  }

  lemma ReadExistingLife(c: Config, s: State, pid: Pid, found: Option<DeliveryId>)
    requires Life(c, s) && ReadExistingStep(s, pid, found) != s
    ensures Life(c, ReadExistingStep(s, pid, found))
  {
    assert ProcLife(c, s, s.procs[pid]);
    QuietLife(c, s, ReadExistingStep(s, pid, found), pid);
  }

  lemma ReceiveLife(c: Config, s: State, pid: Pid, mid: MessageId, url: string)
    requires Life(c, s) && ReceiveStep(s, pid, mid, url) != s
    ensures Life(c, ReceiveStep(s, pid, mid, url))
  {
    hide Life;
    QuietLife(c, s, ReceiveStep(s, pid, mid, url), pid);
  }

  lemma AdmitLife(c: Config, s: State, pid: Pid, allowed: bool)
    requires Life(c, s) && AdmitStep(s, pid, allowed) != s
    ensures Life(c, AdmitStep(s, pid, allowed))
  {
    hide Life;
    QuietLife(c, s, AdmitStep(s, pid, allowed), pid);
  }

  lemma PoisonLife(c: Config, s: State, mid: MessageId)
    requires Life(c, s)
    ensures Life(c, PoisonStep(s, mid))
  {
    SameLife(c, s, PoisonStep(s, mid));
  }

  lemma SameLife(c: Config, s: State, t: State)
    requires Life(c, s) && t.procs == s.procs && t.db.deliveries == s.db.deliveries && t.interrupted == s.interrupted
    ensures Life(c, t)
  {
    forall d | d in t.db.deliveries ensures RowLife(c, t, d) {
      forall q ensures HoldsAt(s, q, d) <==> HoldsAt(t, q, d) { }
      assert RowLife(c, s, d);
    }
    forall q | q in t.procs ensures ProcLife(c, t, t.procs[q]) {
      assert ProcLife(c, s, s.procs[q]);
    }
  }

  /** A handler that keeps its claim moves on without writing a delivery. */
  lemma ClaimKeptLife(c: Config, s: State, t: State, pid: Pid, phase: Phase)
    requires Life(c, s) && pid in s.procs && Holds(s.procs[pid])
    requires t.procs == s.procs[pid := s.procs[pid].(phase := phase)]
    requires t.db.deliveries == s.db.deliveries && t.interrupted == s.interrupted
    requires Holds(s.procs[pid].(phase := phase)) && phase.claim == s.procs[pid].phase.claim
    requires phase.Retrying? ==> s.procs[pid].phase.Failing? && !IsExhausted(phase.claim.attempts, c.maxAttempts)
    ensures Life(c, t)
  {
    hide RowLife, OneRow;
    assert ProcLife(c, s, s.procs[pid]);
    QuietLife(c, s, t, pid);
  }

  lemma PrepareLife(c: Config, s: State, pid: Pid, ok: bool, error: string)
    requires Life(c, s) && PrepareStep(s, pid, ok, error) != s
    ensures Life(c, PrepareStep(s, pid, ok, error))
  {
    hide Life;
    ClaimKeptLife(c, s, PrepareStep(s, pid, ok, error), pid, PrepareStep(s, pid, ok, error).procs[pid].phase);
  }

  lemma CallLife(c: Config, s: State, pid: Pid, answered: bool, seen: bool, error: string)
    requires Life(c, s) && CallStep(s, pid, answered, seen, error) != s
    ensures Life(c, CallStep(s, pid, answered, seen, error))
  {
    hide Life;
    var t := CallStep(s, pid, answered, seen, error);
    ClaimKeptLife(c, s, t, pid, t.procs[pid].phase);
  }

  lemma DecideLife(c: Config, s: State, pid: Pid)
    requires Life(c, s) && DecideStep(c, s, pid) != s
    ensures Life(c, DecideStep(c, s, pid))
  {
    hide Life;
    ClaimKeptLife(c, s, DecideStep(c, s, pid), pid, DecideStep(c, s, pid).procs[pid].phase);
  }

  lemma DeleteLife(c: Config, s: State, pid: Pid)
    requires Life(c, s) && DeleteStep(s, pid) != s
    ensures Life(c, DeleteStep(s, pid))
  {
    QuietLife(c, s, DeleteStep(s, pid), pid);
  }

  /** Archiving the payload and writing the dead letter leave the delivery row alone. */
  lemma ArchiveLife(c: Config, s: State, pid: Pid)
    requires Life(c, s) && ArchiveStep(s, pid) != s
    ensures Life(c, ArchiveStep(s, pid))
  {
    assert ProcLife(c, s, s.procs[pid]);
    QuietLife(c, s, ArchiveStep(s, pid), pid);
  }

  lemma BuryLife(c: Config, s: State, pid: Pid)
    requires Life(c, s) && BuryStep(s, pid) != s
    ensures Life(c, BuryStep(s, pid))
  {
    assert ProcLife(c, s, s.procs[pid]);
    QuietLife(c, s, BuryStep(s, pid), pid);
  }

  /** The API, the publishers and the replays touch neither deliveries nor handlers. */
  lemma OutsideLife(c: Config, s: State, t: State, pid: Pid)
    requires Life(c, s) && OthersSame(s, t, pid)
    requires t.db.deliveries == s.db.deliveries && t.interrupted == s.interrupted
    requires pid in s.procs ==> !s.procs[pid].Worker?
    requires pid in t.procs ==> !t.procs[pid].Worker?
    ensures Life(c, t)
  {
    hide RowLife, OneRow;
    QuietLife(c, s, t, pid);
  }

  lemma BeginIngestLife(c: Config, s: State, pid: Pid, id: EventId, content: Content, bytes: nat)
    requires Life(c, s) && BeginIngestStep(c, s, pid, id, content, bytes) != s
    ensures Life(c, BeginIngestStep(c, s, pid, id, content, bytes))
  {
    hide Life;
    OutsideLife(c, s, BeginIngestStep(c, s, pid, id, content, bytes), pid);
  }

  lemma UploadLife(c: Config, s: State, pid: Pid)
    requires Life(c, s) && UploadStep(s, pid) != s
    ensures Life(c, UploadStep(s, pid))
  {
    hide Life;
    OutsideLife(c, s, UploadStep(s, pid), pid);
  }

  lemma CommitIngestLife(c: Config, s: State, pid: Pid, o: OutboxId)
    requires Life(c, s) && CommitIngestStep(s, pid, o) != s
    ensures Life(c, CommitIngestStep(s, pid, o))
  {
    hide Life;
    OutsideLife(c, s, CommitIngestStep(s, pid, o), pid);
  }

  lemma PickLife(c: Config, s: State, pid: Pid, row: OutboxId)
    requires Life(c, s) && PickStep(s, pid, row) != s
    ensures Life(c, PickStep(s, pid, row))
  {
    hide Life;
    OutsideLife(c, s, PickStep(s, pid, row), pid);
  }

  lemma SendLife(c: Config, s: State, pid: Pid, mid: MessageId)
    requires Life(c, s) && SendStep(s, pid, mid) != s
    ensures Life(c, SendStep(s, pid, mid))
  {
    hide Life;
    OutsideLife(c, s, SendStep(s, pid, mid), pid);
  }

  lemma ConfirmSendLife(c: Config, s: State, pid: Pid)
    requires Life(c, s) && ConfirmSendStep(s, pid) != s
    ensures Life(c, ConfirmSendStep(s, pid))
  {
    hide Life;
    OutsideLife(c, s, ConfirmSendStep(s, pid), pid);
  }

  lemma PublishLife(c: Config, s: State, pid: Pid)
    requires Life(c, s) && PublishStep(s, pid) != s
    ensures Life(c, PublishStep(s, pid))
  {
    hide Life;
    OutsideLife(c, s, PublishStep(s, pid), pid);
  }

  lemma BeginReplayLife(c: Config, s: State, pid: Pid, input: ReplayInput, url: string)
    requires Life(c, s) && BeginReplayStep(s, pid, input, url) != s
    ensures Life(c, BeginReplayStep(s, pid, input, url))
  {
    hide Life;
    OutsideLife(c, s, BeginReplayStep(s, pid, input, url), pid);
  }

  lemma CommitReplayLife(c: Config, s: State, pid: Pid, e: EventId, o: OutboxId, r: ReplayId)
    requires Life(c, s) && CommitReplayStep(s, pid, e, o, r) != s
    ensures Life(c, CommitReplayStep(s, pid, e, o, r))
  {
    hide Life, UniqueViolation;
    OutsideLife(c, s, CommitReplayStep(s, pid, e, o, r), pid);
  }

  lemma NextLife(c: Config, s: State, a: Action)
    requires Life(c, s) && OneHandler(s)
    ensures Life(c, Next(c, s, a))
  {
    hide *;
    NextIs(c, s, a);
    if Next(c, s, a) != s {
      match a {
        case BeginIngest(pid, id, content, bytes) => BeginIngestLife(c, s, pid, id, content, bytes);
        case Upload(pid) => UploadLife(c, s, pid);
        case CommitIngest(pid, o) => CommitIngestLife(c, s, pid, o);
        case Pick(pid, row) => PickLife(c, s, pid, row);
        case Send(pid, mid) => SendLife(c, s, pid, mid);
        case ConfirmSend(pid) => ConfirmSendLife(c, s, pid);
        case Publish(pid) => PublishLife(c, s, pid);
        case ReceivePoison(mid) => PoisonLife(c, s, mid);
        case Receive(pid, mid, url) => ReceiveLife(c, s, pid, mid, url);
        case Admit(pid, allowed) => AdmitLife(c, s, pid, allowed);
        case Lookup(pid, found, now) => LookupLife(c, s, pid, found, now);
        case ReadExisting(pid, found) => ReadExistingLife(c, s, pid, found);
        case WriteAttempt(pid, newId) => WriteAttemptLife(c, s, pid, newId);
        case Prepare(pid, ok, error) => PrepareLife(c, s, pid, ok, error);
        case Call(pid, answered, seen, error) => CallLife(c, s, pid, answered, seen, error);
        case Decide(pid) => DecideLife(c, s, pid);
        case Succeed(pid) => SucceedLife(c, s, pid);
        case Retry(pid, next) => RetryLife(c, s, pid, next);
        case Archive(pid) => ArchiveLife(c, s, pid);
        case Bury(pid) => BuryLife(c, s, pid);
        case MarkDead(pid) => MarkDeadLife(c, s, pid);
        case Delete(pid) => DeleteLife(c, s, pid);
        case BeginReplay(pid, input, url) => BeginReplayLife(c, s, pid, input, url);
        case CommitReplay(pid, e, o, r) => CommitReplayLife(c, s, pid, e, o, r);
        case Crash(pid) => CrashLife(c, s, pid);
      }
    }
  }

  // ---- the guarantees ----

  /** In every state of the run at most one handler works on a delivery. */
  ghost predicate OneHandlerThroughout(c: Config, run: seq<Action>) {
    forall n | 0 <= n <= |run| :: OneHandler(Run(c, run[..n]))
  }

  lemma {:induction false} RunLife(c: Config, run: seq<Action>)
    requires OneHandlerThroughout(c, run)
    ensures Life(c, Run(c, run))
  {
    if run != [] {
      var before := run[..|run| - 1];
      assert OneHandlerThroughout(c, before) by {
        forall n | 0 <= n <= |before| ensures OneHandler(Run(c, before[..n])) {
          assert before[..n] == run[..n];
        }
      }
      RunLife(c, before);
      assert run[..|before|] == before;
      NextLife(c, Run(c, before), run[|run| - 1]);
    }
  }

  /** A retry time and an error are recorded exactly where they belong, a dead-lettered delivery has
      its dead letter, and the attempts exceed the budget only by the interrupted handlings. */
  lemma DeliveryRecords(c: Config, run: seq<Action>, d: DeliveryId)
    requires OneHandlerThroughout(c, run) && d in Run(c, run).db.deliveries
    ensures var s := Run(c, run); var row := s.db.deliveries[d];
            && (row.nextAttemptAt.Some? <==> row.status == FAILED)
            && (row.lastError.Some? <==> row.status == FAILED || row.status == DEAD_LETTERED)
            && (row.status == DEAD_LETTERED ==> d in s.db.deadLetters)
            && row.attempts <= Limit(c.maxAttempts) + Interruptions(s, d)
  {
    RunLife(c, run);
    assert RowLife(c, Run(c, run), d);
    RunKeeps(c, run);
    TerminalFacts(Run(c, run));
  }

  /** Without interruptions a delivery nobody handles has failed and waits for its retry, or is
      terminal; and it is terminal once the budget is used up. */
  lemma UninterruptedEnds(c: Config, run: seq<Action>, d: DeliveryId)
    requires OneHandlerThroughout(c, run) && d in Run(c, run).db.deliveries
    requires Interruptions(Run(c, run), d) == 0 && !Held(Run(c, run), d)
    ensures var row := Run(c, run).db.deliveries[d];
            && (row.status == FAILED || Terminal(row.status))
            && (IsExhausted(row.attempts, c.maxAttempts) ==> Terminal(row.status))
            && row.attempts <= Limit(c.maxAttempts)
  {
    RunLife(c, run);
    assert RowLife(c, Run(c, run), d);
  }

  // ---- when a terminal delivery changes ----

  predicate RowKept(c: Config, s: State, a: Action, d: DeliveryId)
    requires d in s.db.deliveries
  {
    d in Next(c, s, a).db.deliveries && Next(c, s, a).db.deliveries[d] == s.db.deliveries[d]
  }

  /** The next write of a worker changes the row `d`: it has read the row in upsertInFlight and is about to put
      it in flight again, or it is about to record an outcome that the row does not have. */
  predicate Rewrites(s: State, pid: Pid, d: DeliveryId)
    requires d in s.db.deliveries
  {
    pid in s.procs && s.procs[pid].Worker? &&
    var row := s.db.deliveries[d];
    match s.procs[pid].phase
    case Writing(existing) => s.procs[pid].body.Parsed? && existing == Some(d)
    case Retrying(claim, error) => claim.delivery == d
    case Succeeding(claim) => claim.delivery == d && !(row.status == SUCCEEDED && row.lastError == None)
    case Marking(claim, error) =>
      claim.delivery == d &&
      !(row.status == DEAD_LETTERED && row.lastError == Some(Clip(error)) && row.nextAttemptAt == None)
    case _ => false
  }

  lemma WriteAttemptRewrites(s: State, pid: Pid, newId: DeliveryId, d: DeliveryId)
    requires d in s.db.deliveries && Terminal(s.db.deliveries[d].status) && newId !in s.db.deliveries
    ensures var t := WriteAttemptStep(s, pid, newId);
            d in t.db.deliveries &&
            (t.db.deliveries[d] != s.db.deliveries[d] <==> Rewrites(s, pid, d) && s.procs[pid].phase.Writing?)
  {
  }

  lemma SucceedRewrites(s: State, pid: Pid, d: DeliveryId)
    requires d in s.db.deliveries && Terminal(s.db.deliveries[d].status)
    ensures var t := SucceedStep(s, pid);
            d in t.db.deliveries &&
            (t.db.deliveries[d] != s.db.deliveries[d] <==> Rewrites(s, pid, d) && s.procs[pid].phase.Succeeding?)
  {
  }

  lemma RetryRewrites(s: State, pid: Pid, next: int, d: DeliveryId)
    requires d in s.db.deliveries && Terminal(s.db.deliveries[d].status)
    ensures var t := RetryStep(s, pid, next);
            d in t.db.deliveries &&
            (t.db.deliveries[d] != s.db.deliveries[d] <==> Rewrites(s, pid, d) && s.procs[pid].phase.Retrying?)
  {
    hide Clip;
  }

  lemma MarkDeadRewrites(s: State, pid: Pid, d: DeliveryId)
    requires d in s.db.deliveries && Terminal(s.db.deliveries[d].status)
    ensures var t := MarkDeadStep(s, pid);
            d in t.db.deliveries &&
            (t.db.deliveries[d] != s.db.deliveries[d] <==> Rewrites(s, pid, d) && s.procs[pid].phase.Marking?)
  {
    hide Clip;
  }

  /** In any state, whatever happens next keeps a terminal delivery's row if and only if no worker is about
      to rewrite it. */
  lemma TerminalKeptIff(c: Config, s: State, d: DeliveryId)
    requires d in s.db.deliveries && Terminal(s.db.deliveries[d].status)
    ensures (forall a :: RowKept(c, s, a, d)) <==> forall pid :: !Rewrites(s, pid, d)
  {
    hide Rewrites;
    if pid :| Rewrites(s, pid, d) {
      var a := RewritingAction(c, s, pid, d);
      assert !RowKept(c, s, a, d);
    } else {
      forall a ensures RowKept(c, s, a, d) {
        NotRewritten(c, s, a, d);
      }
    }
  }

  lemma NotRewritten(c: Config, s: State, a: Action, d: DeliveryId)
    requires d in s.db.deliveries && Terminal(s.db.deliveries[d].status) && forall pid :: !Rewrites(s, pid, d)
    ensures RowKept(c, s, a, d)
  {
    assert WritesDelivery(a) <==> a.WriteAttempt? || a.Succeed? || a.Retry? || a.MarkDead?;
    hide *;
    NextIs(c, s, a);
    RowKeptIs(c, s, a, d);
    match a {
      case WriteAttempt(pid, newId) =>
        if newId in s.db.deliveries { RefusedWrite(s, pid, newId); } else { WriteAttemptRewrites(s, pid, newId, d); }
      case Succeed(pid) => SucceedRewrites(s, pid, d);
      case Retry(pid, next) => RetryRewrites(s, pid, next, d);
      case MarkDead(pid) => MarkDeadRewrites(s, pid, d);
      case _ =>
        OnlyHandlersWrite(c, s, a);
    }
  }

  lemma RowKeptIs(c: Config, s: State, a: Action, d: DeliveryId)
    requires d in s.db.deliveries
    ensures RowKept(c, s, a, d) <==>
              d in Next(c, s, a).db.deliveries && Next(c, s, a).db.deliveries[d] == s.db.deliveries[d]
  {
  }

  lemma RefusedWrite(s: State, pid: Pid, newId: DeliveryId)
    requires newId in s.db.deliveries
    ensures WriteAttemptStep(s, pid, newId) == s
  {
  }

  lemma RewritingAction(c: Config, s: State, pid: Pid, d: DeliveryId) returns (a: Action)
    requires d in s.db.deliveries && Terminal(s.db.deliveries[d].status) && Rewrites(s, pid, d)
    ensures !RowKept(c, s, a, d)
  {
    var phase := s.procs[pid].phase;
    var newId := FreshId(s.db.deliveries.Keys);
    a := if phase.Writing? then WriteAttempt(pid, newId) else if phase.Retrying? then Retry(pid, 0)
         else if phase.Succeeding? then Succeed(pid) else MarkDead(pid);
    WriteAttemptRewrites(s, pid, newId, d);
    RetryRewrites(s, pid, 0, d);
    SucceedRewrites(s, pid, d);
    MarkDeadRewrites(s, pid, d);
    NextIs(c, s, a);
    hide Next, WriteAttemptStep, RetryStep, SucceedStep, MarkDeadStep, Terminal;
  }

  /** With one handler at a time no worker is about to rewrite a terminal delivery. */
  lemma TerminalIsFree(c: Config, s: State, pid: Pid, d: DeliveryId)
    requires Life(c, s) && d in s.db.deliveries && Terminal(s.db.deliveries[d].status)
    ensures !Rewrites(s, pid, d)
  {
    hide RowLife, OneRow;
    if pid in s.procs {
      assert ProcLife(c, s, s.procs[pid]);
    }
  }

  /** A succeeded or dead-lettered delivery never changes again. */
  lemma {:induction false} TerminalIsFinal(c: Config, run: seq<Action>, n: nat, d: DeliveryId)
    requires OneHandlerThroughout(c, run) && n <= |run|
    requires d in Run(c, run[..n]).db.deliveries && Terminal(Run(c, run[..n]).db.deliveries[d].status)
    ensures d in Run(c, run).db.deliveries && Run(c, run).db.deliveries[d] == Run(c, run[..n]).db.deliveries[d]
  {
    if n < |run| {
      var before := run[..|run| - 1];
      assert OneHandlerThroughout(c, before) by {
        forall k | 0 <= k <= |before| ensures OneHandler(Run(c, before[..k])) {
          assert before[..k] == run[..k];
        }
      }
      assert before[..n] == run[..n];
      TerminalIsFinal(c, before, n, d);
      RunLife(c, before);
      var s := Run(c, before);
      forall pid ensures !Rewrites(s, pid, d) {
        TerminalIsFree(c, s, pid, d);
      }
      TerminalKeptIff(c, s, d);
      assert RowKept(c, s, run[|run| - 1], d);
    } else {
      assert run[..n] == run;
    }
  }
}
