/** The at-least-once delivery pipeline as a machine whose steps are the awaits of ingestEvent,
    publishOne, handleMessage, moveToDeadLetter, scheduleRetry and createReplay. Any number of
    API requests, publishers, workers and replay requests run interleaved, and each can crash
    before or after any of its steps. */
module Pipeline {
  import opened Store
  import opened Backoff

  type Pid = nat
  type MessageId = nat

  /** What the API accepted for an event. */
  datatype Content = Content(tenant: TenantId, kind: string, payload: Payload)

  datatype Message = Message(event: EventId, tenant: TenantId, kind: string,
                             payload: Payload, key: Option<ArchiveKey>)
  datatype Body = Parsed(message: Message) | Poison

  /** One webhook call, with what the destination answered. */
  datatype Post = Post(url: string, event: EventId, tenant: TenantId, kind: string,
                       payload: Payload, ok: bool)

  /** The row returned by upsertInFlight, kept in a local variable of handleMessage. */
  datatype Claim = Claim(delivery: DeliveryId, event: EventId, tenant: TenantId, attempts: nat)

  datatype Phase =
    | Received
    | Admitted
    | Upserting
    | Writing(existing: Option<DeliveryId>)
    | Preparing(claim: Claim)
    | Sending(claim: Claim, payload: Payload)
    | Succeeding(claim: Claim)
    | Failing(claim: Claim, error: string)
    | Retrying(claim: Claim, error: string)
    | Archiving(claim: Claim, error: string)
    | Burying(claim: Claim, error: string, key: ArchiveKey)
    | Marking(claim: Claim, error: string)
    | Acknowledging
    | Deferring

  datatype Proc =
    | Api(id: EventId, content: Content, large: bool, uploaded: bool)
    | Publisher(row: OutboxId, message: Message, sent: bool, confirmed: bool)
    | Worker(url: string, mid: MessageId, body: Body, phase: Phase)
    | Replayer(input: ReplayInput, source: Source)

  /** `accepted`, `replayOf`, `posts` and `interrupted` are history; nothing branches on them.
      `interrupted` counts the handlings of a delivery that stopped while it was in flight. */
  datatype State = State(
    db: Database,
    archive: map<ArchiveKey, Payload>,
    bodies: map<MessageId, Body>,
    live: set<MessageId>,
    drawn: set<EventId>,
    procs: map<Pid, Proc>,
    accepted: map<EventId, Content>,
    replayOf: map<EventId, EventId>,
    posts: seq<Post>,
    interrupted: map<DeliveryId, nat>)

  const Init := State(Empty, map[], map[], {}, {}, map[], map[], map[], [], map[])

  datatype Action =
    | BeginIngest(pid: Pid, id: EventId, content: Content, bytes: nat)
    | Upload(pid: Pid)
    | CommitIngest(pid: Pid, newOutbox: OutboxId)
    | Pick(pid: Pid, row: OutboxId)
    | Send(pid: Pid, mid: MessageId)
    | ConfirmSend(pid: Pid)
    | Publish(pid: Pid)
    | ReceivePoison(mid: MessageId)
    | Receive(pid: Pid, mid: MessageId, url: string)
    | Admit(pid: Pid, allowed: bool)
    | Lookup(pid: Pid, found: Option<DeliveryId>, now: int)
    | ReadExisting(pid: Pid, found: Option<DeliveryId>)
    | WriteAttempt(pid: Pid, newId: DeliveryId)
    | Prepare(pid: Pid, ok: bool, error: string)
    | Call(pid: Pid, answered: bool, seen: bool, error: string)
    | Decide(pid: Pid)
    | Succeed(pid: Pid)
    | Retry(pid: Pid, next: int)
    | Archive(pid: Pid)
    | Bury(pid: Pid)
    | MarkDead(pid: Pid)
    | Delete(pid: Pid)
    | BeginReplay(pid: Pid, input: ReplayInput, url: string)
    | CommitReplay(pid: Pid, newEvent: EventId, newOutbox: OutboxId, newReplay: ReplayId)
    | Crash(pid: Pid)

  datatype Config = Config(maxAttempts: Budget, maxBytes: nat)

  // ---- history predicates ----

  ghost predicate Answered(s: State, e: EventId) {
    exists p :: p in s.posts && p.event == e && p.ok
  }

  /** A dead-letter row for `e` whose archive key holds the accepted payload. */
  ghost predicate Buried(s: State, e: EventId) {
    exists d :: d in s.db.deadLetters && BuriedBy(s, e, d)
  }

  ghost predicate BuriedBy(s: State, e: EventId, d: DeliveryId)
    requires d in s.db.deadLetters
  {
    s.db.deadLetters[d].event == e && HoldsPayload(s, s.db.deadLetters[d].key, e)
  }

  ghost predicate HoldsPayload(s: State, key: ArchiveKey, e: EventId) {
    e in s.accepted && key in s.archive && s.archive[key] == s.accepted[e].payload
  }

  ghost predicate Settled(s: State, e: EventId) {
    Answered(s, e) || Buried(s, e)
  }

  ghost predicate Queued(s: State, e: EventId) {
    exists m :: m in s.live && m in s.bodies && s.bodies[m].Parsed? && s.bodies[m].message.event == e
  }

  ghost predicate Unpublished(s: State, e: EventId) {
    exists o :: o in s.db.outbox && s.db.outbox[o].event == e && !s.db.outbox[o].published
  }

  // ---- steps of one process ----

  function With(s: State, pid: Pid, p: Proc): State {
    s.(procs := s.procs[pid := p])
  }

  function End(s: State, pid: Pid): State {
    s.(procs := s.procs - {pid})
  }

  function InPhase(s: State, pid: Pid, w: Proc, phase: Phase): State
    requires w.Worker?
  {
    With(s, pid, w.(phase := phase))
  }

  // ---- ingestEvent: the claim-check choice, the upload, then event and outbox in one transaction ----

  /** `crypto.randomUUID()` never draws an identifier twice. */
  function BeginIngestStep(c: Config, s: State, pid: Pid, id: EventId, content: Content, bytes: nat): State {
    if pid !in s.procs && id !in s.drawn then
      With(s.(drawn := s.drawn + {id}), pid, Api(id, content, bytes > c.maxBytes, false))
    else s
  }

  function UploadStep(s: State, pid: Pid): State {
    if pid in s.procs && s.procs[pid].Api? && s.procs[pid].large && !s.procs[pid].uploaded then
      var p := s.procs[pid];
      With(s.(archive := s.archive[EventKey(p.content.tenant, p.id) := p.content.payload]), pid, p.(uploaded := true))
    else s
  }

  function IngestedRow(id: EventId, content: Content, large: bool): EventRow {
    if large then EventRow(content.tenant, content.kind, JsonNull, Some(EventKey(content.tenant, id)))
    else EventRow(content.tenant, content.kind, content.payload, None)
  }

  function CommitIngestStep(s: State, pid: Pid, newOutbox: OutboxId): State {
    if pid in s.procs && s.procs[pid].Api? && s.procs[pid].large == s.procs[pid].uploaded
        && newOutbox !in s.db.outbox then
      var p := s.procs[pid];
      End(s.(db := CommitEvent(s.db, p.id, newOutbox, IngestedRow(p.id, p.content, p.large)),
             accepted := s.accepted[p.id := p.content]), pid)
    else s
  }

  // ---- publishOne ----

  function MessageOf(e: EventId, row: EventRow): Message {
    Message(e, row.tenant, row.kind, if row.key.Some? then JsonNull else row.payload, row.key)
  }

  function PickStep(s: State, pid: Pid, row: OutboxId): State {
    if pid !in s.procs && row in s.db.outbox && !s.db.outbox[row].published
        && s.db.outbox[row].event in s.db.events then
      var e := s.db.outbox[row].event;
      With(s, pid, Publisher(row, MessageOf(e, s.db.events[e]), false, false))
    else s
  }

  /** Sending may put the message in the queue, more than once, without the publisher learning it. */
  function SendStep(s: State, pid: Pid, mid: MessageId): State {
    if pid in s.procs && s.procs[pid].Publisher? && !s.procs[pid].confirmed && mid !in s.bodies then
      With(s.(bodies := s.bodies[mid := Parsed(s.procs[pid].message)], live := s.live + {mid}),
           pid, s.procs[pid].(sent := true))
    else s
  }

  function ConfirmSendStep(s: State, pid: Pid): State {
    if pid in s.procs && s.procs[pid].Publisher? && s.procs[pid].sent then
      With(s, pid, s.procs[pid].(confirmed := true))
    else s
  }

  /** Only a confirmed send is followed by markPublished. */
  function PublishStep(s: State, pid: Pid): State {
    if pid in s.procs && s.procs[pid].Publisher? && s.procs[pid].confirmed then
      End(s.(db := MarkPublished(s.db, s.procs[pid].row).0), pid)
    else s
  }

  // ---- handleMessage up to the attempt ----

  predicate AtPhase(s: State, pid: Pid) {
    pid in s.procs && s.procs[pid].Worker?
  }

  function PoisonStep(s: State, mid: MessageId): State {
    if mid !in s.bodies then s.(bodies := s.bodies[mid := Poison], live := s.live + {mid}) else s
  }

  /** Standard queues deliver at least once, even after a delete. */
  function ReceiveStep(s: State, pid: Pid, mid: MessageId, url: string): State {
    if pid !in s.procs && mid in s.bodies then With(s, pid, Worker(url, mid, s.bodies[mid], Received)) else s
  }

  function AdmitPhase(body: Body, allowed: bool): Phase {
    if !allowed then Deferring else if body.Poison? then Acknowledging else Admitted
  }

  /** Circuit and rate limit refuse or admit; a body that does not parse is deleted. */
  function AdmitStep(s: State, pid: Pid, allowed: bool): State {
    if AtPhase(s, pid) && s.procs[pid].phase.Received? then
      InPhase(s, pid, s.procs[pid], AdmitPhase(s.procs[pid].body, allowed))
    else s
  }

  /** A terminal delivery is acknowledged, one that is not yet due is hidden. */
  function LookupPhase(existing: DeliveryRow, now: int): Phase {
    if existing.status == DEAD_LETTERED || existing.status == SUCCEEDED then Acknowledging
    else if existing.nextAttemptAt.Some? && existing.nextAttemptAt.value > now then Deferring
    else Upserting
  }

  function LookupStep(s: State, pid: Pid, found: Option<DeliveryId>, now: int): State {
    if AtPhase(s, pid) && s.procs[pid].phase.Admitted? && s.procs[pid].body.Parsed? &&
       IsFirst(s.db, s.procs[pid].body.message.event, s.procs[pid].url, found) then
      InPhase(s, pid, s.procs[pid], if found.None? then Upserting else LookupPhase(s.db.deliveries[found.value], now))
    else s
  }

  function ReadExistingStep(s: State, pid: Pid, found: Option<DeliveryId>): State {
    if AtPhase(s, pid) && s.procs[pid].phase.Upserting? && s.procs[pid].body.Parsed? &&
       IsFirst(s.db, s.procs[pid].body.message.event, s.procs[pid].url, found) then
      InPhase(s, pid, s.procs[pid], Writing(found))
    else s
  }

  function WriteAttemptStep(s: State, pid: Pid, newId: DeliveryId): State {
    if AtPhase(s, pid) && s.procs[pid].phase.Writing? && s.procs[pid].body.Parsed? && newId !in s.db.deliveries &&
       (s.procs[pid].phase.existing.Some? ==> s.procs[pid].phase.existing.value in s.db.deliveries) then
      var w := s.procs[pid];
      var m := w.body.message;
      var db := WriteInFlight(s.db, w.phase.existing, newId, m.event, m.tenant, w.url);
      var d := if w.phase.existing.Some? then w.phase.existing.value else newId;
      var row := db.deliveries[d];
      InPhase(s.(db := db), pid, w, Preparing(Claim(d, row.event, row.tenant, row.attempts)))
    else s
  }

  // ---- handleMessage: loading the payload and the webhook ----

  function PreparePhase(archive: map<ArchiveKey, Payload>, m: Message, claim: Claim, ok: bool, error: string): Phase {
    if ok && m.key.None? then Sending(claim, m.payload)
    else if ok && m.key.value in archive then Sending(claim, archive[m.key.value])
    else Failing(claim, error)
  }

  function PrepareStep(s: State, pid: Pid, ok: bool, error: string): State {
    if AtPhase(s, pid) && s.procs[pid].phase.Preparing? && s.procs[pid].body.Parsed? then
      var w := s.procs[pid];
      InPhase(s, pid, w, PreparePhase(s.archive, w.body.message, w.phase.claim, ok, error))
    else s
  }

  /** The destination may answer 2xx without the worker seeing it. */
  function CallStep(s: State, pid: Pid, answered: bool, seen: bool, error: string): State {
    if AtPhase(s, pid) && s.procs[pid].phase.Sending? && s.procs[pid].body.Parsed? then
      var w := s.procs[pid];
      var m := w.body.message;
      var call := Post(w.url, m.event, m.tenant, m.kind, w.phase.payload, answered);
      InPhase(s.(posts := s.posts + [call]), pid, w,
              if answered && seen then Succeeding(w.phase.claim) else Failing(w.phase.claim, error))
    else s
  }

  function DecidePhase(c: Config, claim: Claim, error: string): Phase {
    if IsExhausted(claim.attempts, c.maxAttempts) then Archiving(claim, error) else Retrying(claim, error)
  }

  function DecideStep(c: Config, s: State, pid: Pid): State {
    if AtPhase(s, pid) && s.procs[pid].phase.Failing? then
      var w := s.procs[pid];
      InPhase(s, pid, w, DecidePhase(c, w.phase.claim, w.phase.error))
    else s
  }

  // ---- markSucceeded, scheduleRetry, moveToDeadLetter and acknowledgeMessage ----

  function SucceedStep(s: State, pid: Pid): State {
    if AtPhase(s, pid) && s.procs[pid].phase.Succeeding? && s.procs[pid].phase.claim.delivery in s.db.deliveries then
      var w := s.procs[pid];
      InPhase(s.(db := MarkSucceeded(s.db, w.phase.claim.delivery)), pid, w, Acknowledging)
    else s
  }

  function RetryStep(s: State, pid: Pid, next: int): State {
    if AtPhase(s, pid) && s.procs[pid].phase.Retrying? && s.procs[pid].phase.claim.delivery in s.db.deliveries then
      var w := s.procs[pid];
      InPhase(s.(db := MarkFailed(s.db, w.phase.claim.delivery, w.phase.error, next)), pid, w, Deferring)
    else s
  }

  function ArchiveStep(s: State, pid: Pid): State {
    if AtPhase(s, pid) && s.procs[pid].phase.Archiving? && s.procs[pid].body.Parsed? then
      var w := s.procs[pid];
      var m := w.body.message;
      var key := if m.key.Some? then m.key.value else DeadLetterKey(m.event);
      var archive := if m.key.Some? then s.archive else s.archive[key := m.payload];
      InPhase(s.(archive := archive), pid, w, Burying(w.phase.claim, w.phase.error, key))
    else s
  }

  function BuryStep(s: State, pid: Pid): State {
    if AtPhase(s, pid) && s.procs[pid].phase.Burying? then
      var w := s.procs[pid];
      var claim := w.phase.claim;
      var input := DeadLetterRow(claim.event, claim.tenant, w.url, Some(Clip(w.phase.error)), claim.attempts,
                                 w.phase.key);
      InPhase(s.(db := CreateDeadLetter(s.db, claim.delivery, input)), pid, w, Marking(w.phase.claim, w.phase.error))
    else s
  }

  function MarkDeadStep(s: State, pid: Pid): State {
    if AtPhase(s, pid) && s.procs[pid].phase.Marking? && s.procs[pid].phase.claim.delivery in s.db.deliveries then
      var w := s.procs[pid];
      InPhase(s.(db := MarkDeadLettered(s.db, w.phase.claim.delivery, w.phase.error)), pid, w, Acknowledging)
    else s
  }

  function DeleteStep(s: State, pid: Pid): State {
    if AtPhase(s, pid) && s.procs[pid].phase.Acknowledging? then
      End(s.(live := s.live - {s.procs[pid].mid}), pid)
    else s
  }

  // ---- createReplay: the transaction reads the source, then its inserts commit together ----

  function BeginReplayStep(s: State, pid: Pid, input: ReplayInput, url: string): State {
    var found := FindSource(s.db, input.tenant, input.source);
    if pid !in s.procs && found.Some? && found.value.status == DEAD_LETTERED && found.value.url == url &&
       found.value.key in s.archive then
      With(s, pid, Replayer(input, found.value))
    else s
  }

  function CommitReplayStep(s: State, pid: Pid, newEvent: EventId, newOutbox: OutboxId, newReplay: ReplayId): State {
    if pid in s.procs && s.procs[pid].Replayer? && newEvent !in s.drawn && newOutbox !in s.db.outbox &&
       newReplay !in s.db.replays && s.procs[pid].source.event in s.accepted &&
       !UniqueViolation(s.db, s.procs[pid].input) then
      var p := s.procs[pid];
      End(s.(db := InsertReplay(s.db, p.input, p.source, newEvent, newOutbox, newReplay),
             drawn := s.drawn + {newEvent},
             accepted := s.accepted[newEvent := s.accepted[p.source.event]],
             replayOf := s.replayOf[newEvent := p.source.event]), pid)
    else s
  }

  /** The delivery a worker has in flight: taken by upsertInFlight, its outcome not yet recorded. */
  predicate Holds(p: Proc) {
    p.Worker? && (p.phase.Preparing? || p.phase.Sending? || p.phase.Succeeding? || p.phase.Failing? ||
                  p.phase.Retrying? || p.phase.Archiving? || p.phase.Burying? || p.phase.Marking?)
  }

  function Interruptions(s: State, d: DeliveryId): nat {
    if d in s.interrupted then s.interrupted[d] else 0
  }

  function CrashStep(s: State, pid: Pid): State {
    if pid in s.procs then
      var s1 := End(s, pid);
      if Holds(s.procs[pid]) then
        var d := s.procs[pid].phase.claim.delivery;
        s1.(interrupted := s1.interrupted[d := Interruptions(s, d) + 1])
      else s1
    else s
  }

  function Next(c: Config, s: State, a: Action): State {
    match a
    case BeginIngest(pid, id, content, bytes) => BeginIngestStep(c, s, pid, id, content, bytes)
    case Upload(pid) => UploadStep(s, pid)
    case CommitIngest(pid, newOutbox) => CommitIngestStep(s, pid, newOutbox)
    case Pick(pid, row) => PickStep(s, pid, row)
    case Send(pid, mid) => SendStep(s, pid, mid)
    case ConfirmSend(pid) => ConfirmSendStep(s, pid)
    case Publish(pid) => PublishStep(s, pid)
    case ReceivePoison(mid) => PoisonStep(s, mid)
    case Receive(pid, mid, url) => ReceiveStep(s, pid, mid, url)
    case Admit(pid, allowed) => AdmitStep(s, pid, allowed)
    case Lookup(pid, found, now) => LookupStep(s, pid, found, now)
    case ReadExisting(pid, found) => ReadExistingStep(s, pid, found)
    case WriteAttempt(pid, newId) => WriteAttemptStep(s, pid, newId)
    case Prepare(pid, ok, error) => PrepareStep(s, pid, ok, error)
    case Call(pid, answered, seen, error) => CallStep(s, pid, answered, seen, error)
    case Decide(pid) => DecideStep(c, s, pid)
    case Succeed(pid) => SucceedStep(s, pid)
    case Retry(pid, next) => RetryStep(s, pid, next)
    case Archive(pid) => ArchiveStep(s, pid)
    case Bury(pid) => BuryStep(s, pid)
    case MarkDead(pid) => MarkDeadStep(s, pid)
    case Delete(pid) => DeleteStep(s, pid)
    case BeginReplay(pid, input, url) => BeginReplayStep(s, pid, input, url)
    case CommitReplay(pid, newEvent, newOutbox, newReplay) => CommitReplayStep(s, pid, newEvent, newOutbox, newReplay)
    case Crash(pid) => CrashStep(s, pid)
  }

  /** Next, action by action. */
  lemma NextIs(c: Config, s: State, a: Action)
    ensures var t := Next(c, s, a);
            match a
            case BeginIngest(pid, id, content, bytes) => t == BeginIngestStep(c, s, pid, id, content, bytes)
            case Upload(pid) => t == UploadStep(s, pid)
            case CommitIngest(pid, newOutbox) => t == CommitIngestStep(s, pid, newOutbox)
            case Pick(pid, row) => t == PickStep(s, pid, row)
            case Send(pid, mid) => t == SendStep(s, pid, mid)
            case ConfirmSend(pid) => t == ConfirmSendStep(s, pid)
            case Publish(pid) => t == PublishStep(s, pid)
            case ReceivePoison(mid) => t == PoisonStep(s, mid)
            case Receive(pid, mid, url) => t == ReceiveStep(s, pid, mid, url)
            case Admit(pid, allowed) => t == AdmitStep(s, pid, allowed)
            case Lookup(pid, found, now) => t == LookupStep(s, pid, found, now)
            case ReadExisting(pid, found) => t == ReadExistingStep(s, pid, found)
            case WriteAttempt(pid, newId) => t == WriteAttemptStep(s, pid, newId)
            case Prepare(pid, ok, error) => t == PrepareStep(s, pid, ok, error)
            case Call(pid, answered, seen, error) => t == CallStep(s, pid, answered, seen, error)
            case Decide(pid) => t == DecideStep(c, s, pid)
            case Succeed(pid) => t == SucceedStep(s, pid)
            case Retry(pid, next) => t == RetryStep(s, pid, next)
            case Archive(pid) => t == ArchiveStep(s, pid)
            case Bury(pid) => t == BuryStep(s, pid)
            case MarkDead(pid) => t == MarkDeadStep(s, pid)
            case Delete(pid) => t == DeleteStep(s, pid)
            case BeginReplay(pid, input, url) => t == BeginReplayStep(s, pid, input, url)
            case CommitReplay(pid, newEvent, newOutbox, newReplay) =>
              t == CommitReplayStep(s, pid, newEvent, newOutbox, newReplay)
            case Crash(pid) => t == CrashStep(s, pid)
  {
    hide PickStep, SendStep, ConfirmSendStep, PublishStep, PoisonStep, ReceiveStep, AdmitStep, LookupStep,
         ReadExistingStep;
    hide WriteAttemptStep, PrepareStep, CallStep, DecideStep, SucceedStep, RetryStep, ArchiveStep, BuryStep,
         MarkDeadStep;
    hide DeleteStep, BeginReplayStep, CrashStep, UploadStep, CommitIngestStep, CommitReplayStep, BeginIngestStep;
  }

  /** handleMessage looks at the row it found: a complete delivery is acknowledged, one whose retry time has not come
      is hidden, and any other, or none, is attempted. */
  lemma LookupDecides(c: Config, s: State, pid: Pid, found: Option<DeliveryId>, now: int)
    requires AtPhase(s, pid) && s.procs[pid].phase.Admitted? && s.procs[pid].body.Parsed?
    requires IsFirst(s.db, s.procs[pid].body.message.event, s.procs[pid].url, found)
    ensures var t := Next(c, s, Lookup(pid, found, now));
            && t == s.(procs := t.procs) && AtPhase(t, pid)
            && t.procs == s.procs[pid := s.procs[pid].(phase := t.procs[pid].phase)]
            && match found
               case None => t.procs[pid].phase.Upserting?
               case Some(d) =>
                 var row, phase := s.db.deliveries[d], t.procs[pid].phase;
                 && (phase.Acknowledging? <==> row.status == SUCCEEDED || row.status == DEAD_LETTERED)
                 && (phase.Deferring? <==> row.status != SUCCEEDED && row.status != DEAD_LETTERED &&
                                           row.nextAttemptAt.Some? && row.nextAttemptAt.value > now)
                 && (phase.Upserting? <==> row.status != SUCCEEDED && row.status != DEAD_LETTERED &&
                                           (row.nextAttemptAt.None? || row.nextAttemptAt.value <= now))
  {
    NextIs(c, s, Lookup(pid, found, now));
    hide Next;
  }

  /** The state after a run; a step that is not enabled changes nothing. */
  function Run(c: Config, run: seq<Action>): State {
    if run == [] then Init else Next(c, Run(c, run[..|run| - 1]), run[|run| - 1])
  }
}
