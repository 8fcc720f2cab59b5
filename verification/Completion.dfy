/** When the deliveries of an event and a destination are complete for good. There may be several rows
    for one event and destination, because no index forbids it. */
module Completion {
  import opened Store
  import opened Backoff
  import opened Pipeline
  import opened PipelineFrames
  import opened Lifecycle
  import opened Handling

  type Rows = map<DeliveryId, DeliveryRow>

  function RowsOf(db: Database, e: EventId, url: string): Rows {
    map d | d in db.deliveries && Matches(db.deliveries[d], e, url) :: db.deliveries[d]
  }

  /** There is a row, and every row is SUCCEEDED or DEAD_LETTERED. */
  predicate Complete(rows: Rows) {
    rows.Keys != {} && forall d | d in rows :: Terminal(rows[d].status)
  }

  predicate DeadWith(row: DeliveryRow, error: string) {
    row.status == DEAD_LETTERED && row.lastError == Some(Clip(error)) && row.nextAttemptAt == None
  }

  /** A worker with a claim on the row can still come to record something that the row does not say. */
  predicate CanChange(c: Config, w: Proc, row: DeliveryRow)
    requires Holds(w)
  {
    match w.phase
    case Preparing(_) => w.body.Parsed?
    case Sending(_, _) => w.body.Parsed?
    case Failing(claim, error) =>
      !IsExhausted(claim.attempts, c.maxAttempts) || (w.body.Parsed? && !DeadWith(row, error))
    case Retrying(_, _) => true
    case Succeeding(_) => !(row.status == SUCCEEDED && row.lastError == None)
    case Archiving(_, error) => w.body.Parsed? && !DeadWith(row, error)
    case Burying(_, error, _) => !DeadWith(row, error)
    case Marking(_, error) => !DeadWith(row, error)
  }

  /** The worker handles this event for this destination. */
  predicate Handles(w: Proc, e: EventId, url: string) {
    w.Worker? && w.body.Parsed? && w.body.message.event == e && w.url == url
  }

  /** The worker has passed its look at the row and can still change one of the rows or add one. */
  predicate UnderWay(c: Config, w: Proc, rows: Rows, e: EventId, url: string) {
    w.Worker? &&
    match w.phase
    case Upserting => Handles(w, e, url)
    case Writing(None) => Handles(w, e, url)
    case Writing(Some(d)) => w.body.Parsed? && d in rows
    case _ => Holds(w) && w.phase.claim.delivery in rows && CanChange(c, w, rows[w.phase.claim.delivery])
  }

  ghost predicate NoneUnderWay(c: Config, s: State, e: EventId, url: string) {
    forall pid | pid in s.procs :: !UnderWay(c, s.procs[pid], RowsOf(s.db, e, url), e, url)
  }

  // ---- with nobody under way nothing changes ----

  /** The process that takes the step. */
  function Actor(a: Action): Option<Pid> {
    if a.ReceivePoison? then None else Some(a.pid)
  }

  predicate SameProc(s: State, t: State, q: Pid) {
    (q in t.procs <==> q in s.procs) && (q in s.procs ==> t.procs[q] == s.procs[q])
  }

  lemma IngestOthers(c: Config, s: State, pid: Pid, id: EventId, content: Content, bytes: nat, o: OutboxId, q: Pid)
    requires q != pid
    ensures SameProc(s, BeginIngestStep(c, s, pid, id, content, bytes), q)
    ensures SameProc(s, UploadStep(s, pid), q) && SameProc(s, CommitIngestStep(s, pid, o), q)
  {
    hide CommitEvent;
  }

  lemma PublishOthers(s: State, pid: Pid, row: OutboxId, mid: MessageId, q: Pid)
    requires q != pid
    ensures SameProc(s, PickStep(s, pid, row), q) && SameProc(s, SendStep(s, pid, mid), q)
    ensures SameProc(s, ConfirmSendStep(s, pid), q) && SameProc(s, PublishStep(s, pid), q)
  {
    hide MessageOf, MarkPublished;
  }

  lemma IntakeOthers(s: State, pid: Pid, mid: MessageId, url: string, allowed: bool, q: Pid)
    requires q != pid
    ensures SameProc(s, ReceiveStep(s, pid, mid, url), q) && SameProc(s, AdmitStep(s, pid, allowed), q)
    ensures SameProc(s, DeleteStep(s, pid), q) && SameProc(s, CrashStep(s, pid), q)
  {
  }

  lemma LookOthers(s: State, pid: Pid, found: Option<DeliveryId>, now: int, newId: DeliveryId, q: Pid)
    requires q != pid
    ensures SameProc(s, LookupStep(s, pid, found, now), q) && SameProc(s, ReadExistingStep(s, pid, found), q)
    ensures SameProc(s, WriteAttemptStep(s, pid, newId), q)
  {
    hide IsFirst, LookupPhase;
  }

  lemma AttemptOthers(c: Config, s: State, pid: Pid, ok: bool, seen: bool, error: string, q: Pid)
    requires q != pid
    ensures SameProc(s, PrepareStep(s, pid, ok, error), q) && SameProc(s, CallStep(s, pid, ok, seen, error), q)
    ensures SameProc(s, DecideStep(c, s, pid), q) && SameProc(s, ArchiveStep(s, pid), q)
  {
    hide PreparePhase, DecidePhase;
  }

  lemma RecordOthers(s: State, pid: Pid, next: int, q: Pid)
    requires q != pid
    ensures SameProc(s, SucceedStep(s, pid), q) && SameProc(s, RetryStep(s, pid, next), q)
    ensures SameProc(s, BuryStep(s, pid), q) && SameProc(s, MarkDeadStep(s, pid), q)
  {
    hide Clip, CreateDeadLetter;
  }

  lemma ReplayOthers(s: State, pid: Pid, input: ReplayInput, url: string, e: EventId, o: OutboxId, r: ReplayId, q: Pid)
    requires q != pid
    ensures SameProc(s, BeginReplayStep(s, pid, input, url), q) && SameProc(s, CommitReplayStep(s, pid, e, o, r), q)
  {
    hide FindSource, InsertReplay, UniqueViolation;
  }

  lemma OthersStay(c: Config, s: State, a: Action, q: Pid)
    requires Actor(a) != Some(q)
    ensures SameProc(s, Next(c, s, a), q)
  {
    assert a.ReceivePoison? ==> SameProc(s, PoisonStep(s, a.mid), q);
    assert !a.ReceivePoison? ==> a.pid != q;
    hide *;
    NextIs(c, s, a);
    match a {
      case BeginIngest(pid, id, content, bytes) => IngestOthers(c, s, pid, id, content, bytes, 0, q);
      case Upload(pid) => IngestOthers(c, s, pid, 0, Content(0, "", JsonNull), 0, 0, q);
      case CommitIngest(pid, o) => IngestOthers(c, s, pid, 0, Content(0, "", JsonNull), 0, o, q);
      case Pick(pid, row) => PublishOthers(s, pid, row, 0, q);
      case Send(pid, mid) => PublishOthers(s, pid, 0, mid, q);
      case ConfirmSend(pid) => PublishOthers(s, pid, 0, 0, q);
      case Publish(pid) => PublishOthers(s, pid, 0, 0, q);
      case ReceivePoison(_) =>
      case Receive(pid, mid, url) => IntakeOthers(s, pid, mid, url, false, q);
      case Admit(pid, allowed) => IntakeOthers(s, pid, 0, "", allowed, q);
      case Delete(pid) => IntakeOthers(s, pid, 0, "", false, q);
      case Crash(pid) => IntakeOthers(s, pid, 0, "", false, q);
      case Lookup(pid, found, now) => LookOthers(s, pid, found, now, 0, q);
      case ReadExisting(pid, found) => LookOthers(s, pid, found, 0, 0, q);
      case WriteAttempt(pid, newId) => LookOthers(s, pid, None, 0, newId, q);
      case Prepare(pid, ok, error) => AttemptOthers(c, s, pid, ok, false, error, q);
      case Call(pid, answered, seen, error) => AttemptOthers(c, s, pid, answered, seen, error, q);
      case Decide(pid) => AttemptOthers(c, s, pid, false, false, "", q);
      case Archive(pid) => AttemptOthers(c, s, pid, false, false, "", q);
      case Succeed(pid) => RecordOthers(s, pid, 0, q);
      case Retry(pid, next) => RecordOthers(s, pid, next, q);
      case Bury(pid) => RecordOthers(s, pid, 0, q);
      case MarkDead(pid) => RecordOthers(s, pid, 0, q);
      case BeginReplay(pid, input, url) => ReplayOthers(s, pid, input, url, 0, 0, 0, q);
      case CommitReplay(pid, e, o, r) => ReplayOthers(s, pid, ReplayInput(0, 0, 0), "", e, o, r, q);
    }
  }

  /** The step of `pid` leaves the rows alone and does not set it under way. */
  predicate StillQuiet(c: Config, s: State, t: State, pid: Pid, e: EventId, url: string) {
    && RowsOf(t.db, e, url) == RowsOf(s.db, e, url)
    && (pid in t.procs ==> !UnderWay(c, t.procs[pid], RowsOf(s.db, e, url), e, url))
  }

  predicate QuietAt(c: Config, s: State, pid: Pid, e: EventId, url: string) {
    pid in s.procs ==> !UnderWay(c, s.procs[pid], RowsOf(s.db, e, url), e, url)
  }

  lemma SameRows(s: Database, t: Database, e: EventId, url: string)
    requires t.deliveries == s.deliveries
    ensures RowsOf(t, e, url) == RowsOf(s, e, url)
  {
  }

  /** Writing a row of another event or destination, or the same row again. */
  lemma OtherRow(s: Database, t: Database, d: DeliveryId, row: DeliveryRow, e: EventId, url: string)
    requires t.deliveries == s.deliveries[d := row]
    requires d in RowsOf(s, e, url) ==> row == s.deliveries[d]
    requires d !in RowsOf(s, e, url) ==> !Matches(row, e, url)
    ensures RowsOf(t, e, url) == RowsOf(s, e, url)
  {
  }

  lemma FoundIsTerminal(db: Database, found: Option<DeliveryId>, e: EventId, url: string)
    requires Complete(RowsOf(db, e, url)) && IsFirst(db, e, url, found)
    ensures found.Some? && found.value in db.deliveries && Terminal(db.deliveries[found.value].status)
  {
    var d :| d in RowsOf(db, e, url);
    assert Matches(db.deliveries[d], e, url);
    assert found.value in RowsOf(db, e, url);
  }

  lemma LookupQuiet(c: Config, s: State, pid: Pid, found: Option<DeliveryId>, now: int, e: EventId, url: string)
    requires Complete(RowsOf(s.db, e, url)) && QuietAt(c, s, pid, e, url)
    ensures StillQuiet(c, s, LookupStep(s, pid, found, now), pid, e, url)
  {
    var t := LookupStep(s, pid, found, now);
    SameRows(s.db, t.db, e, url);
    LookedUp(s, pid, found, now, e, url);
    hide LookupStep, CanChange, RowsOf, Complete;
  }

  predicate LooksAway(w: Proc, e: EventId, url: string)
    requires w.Worker?
  {
    w.phase.Acknowledging? || w.phase.Deferring? || (w.phase.Upserting? && !Handles(w, e, url))
  }

  /** Whoever looks for a complete delivery only acknowledges. */
  lemma LookedUp(s: State, pid: Pid, found: Option<DeliveryId>, now: int, e: EventId, url: string)
    requires Complete(RowsOf(s.db, e, url))
    ensures var t := LookupStep(s, pid, found, now);
            && t.db == s.db
            && (t != s ==> AtPhase(t, pid) && LooksAway(t.procs[pid], e, url))
  {
    if AtPhase(s, pid) && Handles(s.procs[pid], e, url) && IsFirst(s.db, e, url, found) {
      FoundIsTerminal(s.db, found, e, url);
    }
    hide RowsOf, Complete, IsFirst, Matches;
  }

  lemma ReadExistingQuiet(c: Config, s: State, pid: Pid, found: Option<DeliveryId>, e: EventId, url: string)
    requires QuietAt(c, s, pid, e, url)
    ensures StillQuiet(c, s, ReadExistingStep(s, pid, found), pid, e, url)
  {
    hide CanChange;
  }

  lemma WriteAttemptQuiet(c: Config, s: State, pid: Pid, newId: DeliveryId, e: EventId, url: string)
    requires QuietAt(c, s, pid, e, url)
    ensures StillQuiet(c, s, WriteAttemptStep(s, pid, newId), pid, e, url)
  {
    var t := WriteAttemptStep(s, pid, newId);
    if t != s {
      var existing := s.procs[pid].phase.existing;
      var d := if existing.Some? then existing.value else newId;
      OtherRow(s.db, t.db, d, t.db.deliveries[d], e, url);
    }
    hide CanChange;
  }

  lemma ReceiveQuiet(c: Config, s: State, pid: Pid, mid: MessageId, to: string, e: EventId, url: string)
    requires QuietAt(c, s, pid, e, url)
    ensures StillQuiet(c, s, ReceiveStep(s, pid, mid, to), pid, e, url)
  {
    SameRows(s.db, ReceiveStep(s, pid, mid, to).db, e, url);
    hide RowsOf, CanChange;
  }

  lemma AdmitQuiet(c: Config, s: State, pid: Pid, allowed: bool, e: EventId, url: string)
    requires QuietAt(c, s, pid, e, url)
    ensures StillQuiet(c, s, AdmitStep(s, pid, allowed), pid, e, url)
  {
    SameRows(s.db, AdmitStep(s, pid, allowed).db, e, url);
    hide RowsOf, CanChange;
  }

  lemma DeleteQuiet(c: Config, s: State, pid: Pid, e: EventId, url: string)
    requires QuietAt(c, s, pid, e, url)
    ensures StillQuiet(c, s, DeleteStep(s, pid), pid, e, url)
  {
    SameRows(s.db, DeleteStep(s, pid).db, e, url);
    hide RowsOf, CanChange;
  }

  lemma CrashQuiet(c: Config, s: State, pid: Pid, e: EventId, url: string)
    requires QuietAt(c, s, pid, e, url)
    ensures StillQuiet(c, s, CrashStep(s, pid), pid, e, url)
  {
    SameRows(s.db, CrashStep(s, pid).db, e, url);
    hide RowsOf, CanChange;
  }

  lemma PrepareQuiet(c: Config, s: State, pid: Pid, ok: bool, error: string, e: EventId, url: string)
    requires QuietAt(c, s, pid, e, url)
    ensures StillQuiet(c, s, PrepareStep(s, pid, ok, error), pid, e, url)
  {
    SameRows(s.db, PrepareStep(s, pid, ok, error).db, e, url);
    hide RowsOf;
  }

  lemma CallQuiet(c: Config, s: State, pid: Pid, ok: bool, seen: bool, error: string, e: EventId, url: string)
    requires QuietAt(c, s, pid, e, url)
    ensures StillQuiet(c, s, CallStep(s, pid, ok, seen, error), pid, e, url)
  {
    SameRows(s.db, CallStep(s, pid, ok, seen, error).db, e, url);
    hide RowsOf;
  }

  lemma DecideQuiet(c: Config, s: State, pid: Pid, e: EventId, url: string)
    requires QuietAt(c, s, pid, e, url)
    ensures StillQuiet(c, s, DecideStep(c, s, pid), pid, e, url)
  {
    SameRows(s.db, DecideStep(c, s, pid).db, e, url);
    hide RowsOf, Clip, DeadWith;
  }

  lemma ArchiveQuiet(c: Config, s: State, pid: Pid, e: EventId, url: string)
    requires QuietAt(c, s, pid, e, url)
    ensures StillQuiet(c, s, ArchiveStep(s, pid), pid, e, url)
  {
    SameRows(s.db, ArchiveStep(s, pid).db, e, url);
    hide RowsOf, Clip, DeadWith;
  }

  lemma BuryQuiet(c: Config, s: State, pid: Pid, e: EventId, url: string)
    requires QuietAt(c, s, pid, e, url)
    ensures StillQuiet(c, s, BuryStep(s, pid), pid, e, url)
  {
    SameRows(s.db, BuryStep(s, pid).db, e, url);
    hide RowsOf, Clip, DeadWith;
  }

  lemma SucceedQuiet(c: Config, s: State, pid: Pid, e: EventId, url: string)
    requires QuietAt(c, s, pid, e, url)
    ensures StillQuiet(c, s, SucceedStep(s, pid), pid, e, url)
  {
    hide Clip;
    var t := SucceedStep(s, pid);
    if t != s {
      var d := s.procs[pid].phase.claim.delivery;
      OtherRow(s.db, t.db, d, t.db.deliveries[d], e, url);
    }
    hide IsExhausted;
  }

  lemma RetryQuiet(c: Config, s: State, pid: Pid, next: int, e: EventId, url: string)
    requires QuietAt(c, s, pid, e, url)
    ensures StillQuiet(c, s, RetryStep(s, pid, next), pid, e, url)
  {
    hide Clip;
    var t := RetryStep(s, pid, next);
    if t != s {
      var d := s.procs[pid].phase.claim.delivery;
      OtherRow(s.db, t.db, d, t.db.deliveries[d], e, url);
    }
    hide IsExhausted;
  }

  lemma MarkDeadQuiet(c: Config, s: State, pid: Pid, e: EventId, url: string)
    requires QuietAt(c, s, pid, e, url)
    ensures StillQuiet(c, s, MarkDeadStep(s, pid), pid, e, url)
  {
    hide Clip;
    var t := MarkDeadStep(s, pid);
    if t != s {
      var d := s.procs[pid].phase.claim.delivery;
      OtherRow(s.db, t.db, d, t.db.deliveries[d], e, url);
    }
    hide IsExhausted;
  }

  lemma StepQuiet(c: Config, s: State, a: Action, pid: Pid, e: EventId, url: string)
    requires Complete(RowsOf(s.db, e, url)) && QuietAt(c, s, pid, e, url) && Actor(a) == Some(pid)
    ensures StillQuiet(c, s, Next(c, s, a), pid, e, url)
  {
    assert !a.ReceivePoison? && a.pid == pid;
    hide *;
    NextIs(c, s, a);
    match a {
      case Receive(_, mid, to) => ReceiveQuiet(c, s, pid, mid, to, e, url);
      case Admit(_, allowed) => AdmitQuiet(c, s, pid, allowed, e, url);
      case Lookup(_, found, now) => LookupQuiet(c, s, pid, found, now, e, url);
      case ReadExisting(_, found) => ReadExistingQuiet(c, s, pid, found, e, url);
      case WriteAttempt(_, newId) => WriteAttemptQuiet(c, s, pid, newId, e, url);
      case Prepare(_, ok, error) => PrepareQuiet(c, s, pid, ok, error, e, url);
      case Call(_, answered, seen, error) => CallQuiet(c, s, pid, answered, seen, error, e, url);
      case Decide(_) => DecideQuiet(c, s, pid, e, url);
      case Succeed(_) => SucceedQuiet(c, s, pid, e, url);
      case Retry(_, next) => RetryQuiet(c, s, pid, next, e, url);
      case Archive(_) => ArchiveQuiet(c, s, pid, e, url);
      case Bury(_) => BuryQuiet(c, s, pid, e, url);
      case MarkDead(_) => MarkDeadQuiet(c, s, pid, e, url);
      case Delete(_) => DeleteQuiet(c, s, pid, e, url);
      case Crash(_) => CrashQuiet(c, s, pid, e, url);
      case _ => OutsideQuiet(c, s, a, pid, e, url);
    }
  }

  /** The steps of the API, the publisher and replays. */
  lemma OutsideQuiet(c: Config, s: State, a: Action, pid: Pid, e: EventId, url: string)
    requires QuietAt(c, s, pid, e, url) && Actor(a) == Some(pid)
    requires a.BeginIngest? || a.Upload? || a.CommitIngest? || a.Pick? || a.Send? || a.ConfirmSend? || a.Publish? ||
             a.BeginReplay? || a.CommitReplay?
    ensures StillQuiet(c, s, Next(c, s, a), pid, e, url)
  {
    OnlyHandlersWrite(c, s, a);
    SameRows(s.db, Next(c, s, a).db, e, url);
    OutsideProc(c, s, a, pid);
    hide Next, RowsOf, CanChange;
  }

  lemma OutsideProc(c: Config, s: State, a: Action, pid: Pid)
    requires Actor(a) == Some(pid)
    requires a.BeginIngest? || a.Upload? || a.CommitIngest? || a.Pick? || a.Send? || a.ConfirmSend? || a.Publish? ||
             a.BeginReplay? || a.CommitReplay?
    ensures pid in Next(c, s, a).procs ==>
              !Next(c, s, a).procs[pid].Worker? || (pid in s.procs && Next(c, s, a).procs[pid] == s.procs[pid])
  {
    hide CommitEvent, MarkPublished, MessageOf, FindSource, InsertReplay, UniqueViolation, IngestedRow;
  }

  lemma NextQuiet(c: Config, s: State, a: Action, e: EventId, url: string)
    requires Complete(RowsOf(s.db, e, url)) && NoneUnderWay(c, s, e, url)
    ensures RowsOf(Next(c, s, a).db, e, url) == RowsOf(s.db, e, url) && NoneUnderWay(c, Next(c, s, a), e, url)
  {
    hide RowsOf, Complete, UnderWay, Next;
    var t := Next(c, s, a);
    if Actor(a).Some? {
      StepQuiet(c, s, a, Actor(a).value, e, url);
    } else {
      OnlyHandlersWrite(c, s, a);
      SameRows(s.db, t.db, e, url);
    }
    forall q | q in t.procs ensures !UnderWay(c, t.procs[q], RowsOf(t.db, e, url), e, url) {
      if Actor(a) != Some(q) {
        OthersStay(c, s, a, q);
      }
    }
  }

  lemma {:induction false} StaysComplete(c: Config, s: State, run: seq<Action>, e: EventId, url: string)
    requires Complete(RowsOf(s.db, e, url)) && NoneUnderWay(c, s, e, url)
    ensures RowsOf(After(c, s, run).db, e, url) == RowsOf(s.db, e, url) && NoneUnderWay(c, After(c, s, run), e, url)
  {
    hide RowsOf, Complete, NoneUnderWay, Next;
    if run != [] {
      StaysComplete(c, s, run[..|run| - 1], e, url);
      NextQuiet(c, After(c, s, run[..|run| - 1]), run[|run| - 1], e, url);
    }
  }

  // ---- whoever is under way can change something ----

  /** How many steps of its own a worker is away from its next write of a row. */
  function StepsLeft(phase: Phase): nat {
    match phase
    case Upserting => 2
    case Writing(_) => 1
    case Preparing(_) => 6
    case Sending(_, _) => 6
    case Failing(_, _) => 5
    case Archiving(_, _) => 4
    case Burying(_, _, _) => 3
    case Marking(_, _) => 2
    case _ => 1
  }

  /** The step changes one of the rows, or brings the worker closer to such a step. */
  predicate Advances(c: Config, s: State, t: State, pid: Pid, e: EventId, url: string)
    requires AtPhase(s, pid)
  {
    || RowsOf(t.db, e, url) != RowsOf(s.db, e, url)
    || (&& AtPhase(t, pid) && UnderWay(c, t.procs[pid], RowsOf(t.db, e, url), e, url)
        && StepsLeft(t.procs[pid].phase) < StepsLeft(s.procs[pid].phase))
  }

  function OtherError(row: DeliveryRow): string {
    if row.lastError == Some(Clip("")) then "x" else ""
  }

  lemma OtherErrorDiffers(row: DeliveryRow)
    ensures !DeadWith(row, OtherError(row))
  {
  }

  /** A written row is seen. */
  lemma RowWritten(s: Database, t: Database, d: DeliveryId, e: EventId, url: string)
    requires d in t.deliveries && Matches(t.deliveries[d], e, url)
    requires d in RowsOf(s, e, url) ==> t.deliveries[d] != s.deliveries[d]
    ensures RowsOf(t, e, url) != RowsOf(s, e, url)
  {
    assert d in RowsOf(t, e, url) && RowsOf(t, e, url)[d] == t.deliveries[d];
    assert d in RowsOf(s, e, url) ==> RowsOf(s, e, url)[d] == s.deliveries[d];
  }

  lemma WriteAttemptAdvances(c: Config, s: State, pid: Pid, newId: DeliveryId, e: EventId, url: string)
    requires Complete(RowsOf(s.db, e, url)) && AtPhase(s, pid) && s.procs[pid].phase.Writing?
    requires UnderWay(c, s.procs[pid], RowsOf(s.db, e, url), e, url) && newId !in s.db.deliveries
    ensures Advances(c, s, WriteAttemptStep(s, pid, newId), pid, e, url)
  {
    var t := WriteAttemptStep(s, pid, newId);
    var existing := s.procs[pid].phase.existing;
    var d := if existing.Some? then existing.value else newId;
    if existing.Some? {
      assert d in RowsOf(s.db, e, url) && Terminal(s.db.deliveries[d].status);
    }
    assert d in t.db.deliveries && t.db.deliveries[d].status == IN_FLIGHT && Matches(t.db.deliveries[d], e, url);
    hide WriteAttemptStep, Complete, CanChange, UnderWay, RowsOf, Matches;
    RowWritten(s.db, t.db, d, e, url);
  }

  lemma RecordAdvances(c: Config, s: State, pid: Pid, e: EventId, url: string)
    requires Complete(RowsOf(s.db, e, url)) && AtPhase(s, pid)
    requires UnderWay(c, s.procs[pid], RowsOf(s.db, e, url), e, url)
    ensures s.procs[pid].phase.Succeeding? ==> Advances(c, s, SucceedStep(s, pid), pid, e, url)
    ensures s.procs[pid].phase.Retrying? ==> Advances(c, s, RetryStep(s, pid, 0), pid, e, url)
    ensures s.procs[pid].phase.Marking? ==> Advances(c, s, MarkDeadStep(s, pid), pid, e, url)
  {
    hide Clip;
    var w := s.procs[pid];
    if w.phase.Succeeding? {
      RowWritten(s.db, SucceedStep(s, pid).db, w.phase.claim.delivery, e, url);
    } else if w.phase.Retrying? {
      RowWritten(s.db, RetryStep(s, pid, 0).db, w.phase.claim.delivery, e, url);
    } else if w.phase.Marking? {
      RowWritten(s.db, MarkDeadStep(s, pid).db, w.phase.claim.delivery, e, url);
    }
  }

  lemma LookAdvances(c: Config, s: State, pid: Pid, d: DeliveryId, e: EventId, url: string)
    requires d in RowsOf(s.db, e, url) && AtPhase(s, pid) && s.procs[pid].phase.Upserting?
    requires UnderWay(c, s.procs[pid], RowsOf(s.db, e, url), e, url)
    ensures Advances(c, s, ReadExistingStep(s, pid, Some(d)), pid, e, url)
  {
    SameRows(s.db, ReadExistingStep(s, pid, Some(d)).db, e, url);
  }

  lemma FailAdvances(c: Config, s: State, pid: Pid, e: EventId, url: string)
    requires AtPhase(s, pid) && (s.procs[pid].phase.Preparing? || s.procs[pid].phase.Sending?)
    requires UnderWay(c, s.procs[pid], RowsOf(s.db, e, url), e, url)
    ensures var error := OtherError(RowsOf(s.db, e, url)[s.procs[pid].phase.claim.delivery]);
            && (s.procs[pid].phase.Preparing? ==> Advances(c, s, PrepareStep(s, pid, false, error), pid, e, url))
            && (s.procs[pid].phase.Sending? ==> Advances(c, s, CallStep(s, pid, false, false, error), pid, e, url))
  {
    var error := OtherError(RowsOf(s.db, e, url)[s.procs[pid].phase.claim.delivery]);
    OtherErrorDiffers(RowsOf(s.db, e, url)[s.procs[pid].phase.claim.delivery]);
    SameRows(s.db, PrepareStep(s, pid, false, error).db, e, url);
    SameRows(s.db, CallStep(s, pid, false, false, error).db, e, url);
    hide RowsOf, OtherError, DeadWith;
  }

  lemma DecideAdvances(c: Config, s: State, pid: Pid, e: EventId, url: string)
    requires AtPhase(s, pid) && s.procs[pid].phase.Failing?
    requires UnderWay(c, s.procs[pid], RowsOf(s.db, e, url), e, url)
    ensures Advances(c, s, DecideStep(c, s, pid), pid, e, url)
  {
    SameRows(s.db, DecideStep(c, s, pid).db, e, url);
    hide RowsOf, DeadWith, Clip;
  }

  lemma ArchiveAdvances(c: Config, s: State, pid: Pid, e: EventId, url: string)
    requires AtPhase(s, pid) && s.procs[pid].phase.Archiving?
    requires UnderWay(c, s.procs[pid], RowsOf(s.db, e, url), e, url)
    ensures Advances(c, s, ArchiveStep(s, pid), pid, e, url)
  {
    SameRows(s.db, ArchiveStep(s, pid).db, e, url);
    hide RowsOf, DeadWith, Clip;
  }

  lemma BuryAdvances(c: Config, s: State, pid: Pid, e: EventId, url: string)
    requires AtPhase(s, pid) && s.procs[pid].phase.Burying?
    requires UnderWay(c, s.procs[pid], RowsOf(s.db, e, url), e, url)
    ensures Advances(c, s, BuryStep(s, pid), pid, e, url)
  {
    SameRows(s.db, BuryStep(s, pid).db, e, url);
    hide RowsOf, DeadWith, Clip;
  }

  lemma SomeRow(rows: Rows) returns (d: DeliveryId)
    requires Complete(rows)
    ensures d in rows
  {
    d :| d in rows;
  }

  lemma PhaseUnderWay(c: Config, w: Proc, rows: Rows, e: EventId, url: string)
    requires UnderWay(c, w, rows, e, url)
    ensures w.Worker? && (w.phase.Upserting? || w.phase.Writing? || (Holds(w) && w.phase.claim.delivery in rows))
  {
  }

  lemma NextAdvances(c: Config, s: State, pid: Pid, e: EventId, url: string) returns (a: Action)
    requires Complete(RowsOf(s.db, e, url)) && AtPhase(s, pid)
    requires UnderWay(c, s.procs[pid], RowsOf(s.db, e, url), e, url)
    ensures Advances(c, s, Next(c, s, a), pid, e, url)
  {
    hide Complete, RowsOf, UnderWay, Advances, OtherError, ReadExistingStep, WriteAttemptStep, PrepareStep, CallStep;
    hide DecideStep, ArchiveStep, BuryStep, SucceedStep, RetryStep, MarkDeadStep;
    var phase := s.procs[pid].phase;
    PhaseUnderWay(c, s.procs[pid], RowsOf(s.db, e, url), e, url);
    if phase.Upserting? {
      var d := SomeRow(RowsOf(s.db, e, url));
      LookAdvances(c, s, pid, d, e, url);
      a := ReadExisting(pid, Some(d));
    } else if phase.Writing? {
      var newId := FreshId(s.db.deliveries.Keys);
      WriteAttemptAdvances(c, s, pid, newId, e, url);
      a := WriteAttempt(pid, newId);
    } else if phase.Preparing? || phase.Sending? {
      var error := OtherError(RowsOf(s.db, e, url)[phase.claim.delivery]);
      FailAdvances(c, s, pid, e, url);
      a := if phase.Preparing? then Prepare(pid, false, error) else Call(pid, false, false, error);
    } else if phase.Failing? {
      DecideAdvances(c, s, pid, e, url);
      a := Decide(pid);
    } else if phase.Archiving? {
      ArchiveAdvances(c, s, pid, e, url);
      a := Archive(pid);
    } else if phase.Burying? {
      BuryAdvances(c, s, pid, e, url);
      a := Bury(pid);
    } else {
      RecordAdvances(c, s, pid, e, url);
      a := if phase.Succeeding? then Succeed(pid) else if phase.Retrying? then Retry(pid, 0) else MarkDead(pid);
    }
  }

  lemma {:induction false} ReachesChange(c: Config, s: State, pid: Pid, e: EventId, url: string)
    returns (run: seq<Action>)
    requires Complete(RowsOf(s.db, e, url)) && AtPhase(s, pid)
    requires UnderWay(c, s.procs[pid], RowsOf(s.db, e, url), e, url)
    ensures RowsOf(After(c, s, run).db, e, url) != RowsOf(s.db, e, url)
    decreases StepsLeft(s.procs[pid].phase)
  {
    hide RowsOf, Complete, UnderWay, Next, StepsLeft;
    var a := NextAdvances(c, s, pid, e, url);
    var t := Next(c, s, a);
    AfterNone(c, s);
    AfterOne(c, s, [], a);
    assert [] + [a] == [a];
    if RowsOf(t.db, e, url) != RowsOf(s.db, e, url) {
      run := [a];
    } else {
      var rest := ReachesChange(c, t, pid, e, url);
      AfterPlus(c, s, [a], rest);
      run := [a] + rest;
    }
  }

  /** When every delivery of the event and the destination is SUCCEEDED or DEAD_LETTERED: whatever happens from
      then on changes none of them and adds none if and only if no worker is under way. */
  lemma CompleteForeverIff(c: Config, s: State, e: EventId, url: string)
    requires Complete(RowsOf(s.db, e, url))
    ensures (forall run :: RowsOf(After(c, s, run).db, e, url) == RowsOf(s.db, e, url)) <==> NoneUnderWay(c, s, e, url)
  {
    hide RowsOf, Complete, UnderWay, After;
    if NoneUnderWay(c, s, e, url) {
      forall run ensures RowsOf(After(c, s, run).db, e, url) == RowsOf(s.db, e, url) {
        StaysComplete(c, s, run, e, url);
      }
    } else {
      var pid :| pid in s.procs && UnderWay(c, s.procs[pid], RowsOf(s.db, e, url), e, url);
      PhaseUnderWay(c, s.procs[pid], RowsOf(s.db, e, url), e, url);
      var run := ReachesChange(c, s, pid, e, url);
    }
  }
}
