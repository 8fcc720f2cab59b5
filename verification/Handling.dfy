/** packages/worker/src/index.ts, handleMessage and its helpers, with repositories/deliveries.ts and
    repositories/dead-letters.ts, as the program runs them: statements that change the tables, the
    archive and the queue. One handling that is not interrupted is a run of the pipeline's machine. */
module Handling {
  import opened Store
  import opened Backoff
  import opened Pipeline

  // ---- runs that start in any state ----

  function After(c: Config, s: State, run: seq<Action>): State {
    if run == [] then s else Next(c, After(c, s, run[..|run| - 1]), run[|run| - 1])
  }

  lemma AfterOne(c: Config, s: State, run: seq<Action>, a: Action)
    ensures After(c, s, run + [a]) == Next(c, After(c, s, run), a)
  {
    assert (run + [a])[..|run|] == run;
  }

  lemma AfterNone(c: Config, s: State)
    ensures After(c, s, []) == s
  {
  }

  lemma {:induction false} AfterPlus(c: Config, s: State, a: seq<Action>, b: seq<Action>)
    ensures After(c, s, a + b) == After(c, After(c, s, a), b)
    decreases |b|
  {
    hide Next;
    if b == [] {
      assert a + b == a;
    } else {
      AfterPlus(c, s, a, b[..|b| - 1]);
      assert (a + b)[..|a + b| - 1] == a + b[..|b| - 1];
    }
  }

  lemma {:induction false} AfterRun(c: Config, run: seq<Action>, more: seq<Action>)
    ensures After(c, Run(c, run), more) == Run(c, run + more)
    decreases |more|
  {
    if more == [] {
      assert run + more == run;
    } else {
      AfterRun(c, run, more[..|more| - 1]);
      assert (run + more)[..|run + more| - 1] == run + more[..|more| - 1];
    }
  }

  // ---- the steps of one worker, seen from the state without it ----

  ghost predicate Absent(s: State, pid: Pid) {
    pid !in s.procs
  }

  lemma Updated(s: State, pid: Pid, p: Proc, q: Proc)
    ensures With(With(s, pid, p), pid, q) == With(s, pid, q)
  {
    assert s.procs[pid := p][pid := q] == s.procs[pid := q];
  }

  lemma Ended(s: State, pid: Pid, p: Proc)
    requires Absent(s, pid)
    ensures End(With(s, pid, p), pid) == s
  {
    assert s.procs[pid := p] - {pid} == s.procs;
  }

  /** A worker on a parsed message. */
  function On(url: string, mid: MessageId, m: Message, phase: Phase): Proc {
    Worker(url, mid, Parsed(m), phase)
  }

  lemma ReceiveAt(s: State, pid: Pid, mid: MessageId, url: string)
    requires Absent(s, pid) && mid in s.bodies
    ensures ReceiveStep(s, pid, mid, url) == With(s, pid, Worker(url, mid, s.bodies[mid], Received))
  {
  }

  lemma AdmitAt(s: State, pid: Pid, url: string, mid: MessageId, body: Body, allowed: bool)
    ensures AdmitStep(With(s, pid, Worker(url, mid, body, Received)), pid, allowed) ==
            With(s, pid, Worker(url, mid, body, AdmitPhase(body, allowed)))
  {
    Updated(s, pid, Worker(url, mid, body, Received), Worker(url, mid, body, AdmitPhase(body, allowed)));
  }

  lemma LookupAt(s: State, pid: Pid, url: string, mid: MessageId, m: Message, found: Option<DeliveryId>, now: int)
    requires IsFirst(s.db, m.event, url, found)
    ensures LookupStep(With(s, pid, On(url, mid, m, Admitted)), pid, found, now) ==
            With(s, pid, On(url, mid, m,
                            if found.None? then Upserting else LookupPhase(s.db.deliveries[found.value], now)))
  {
    Updated(s, pid, On(url, mid, m, Admitted),
            On(url, mid, m, if found.None? then Upserting else LookupPhase(s.db.deliveries[found.value], now)));
  }

  /** upsertInFlight: its read, then its write. */
  lemma UpsertAt(s: State, pid: Pid, url: string, mid: MessageId, m: Message, found: Option<DeliveryId>,
                 newId: DeliveryId)
    requires IsFirst(s.db, m.event, url, found) && newId !in s.db.deliveries
    ensures var db := WriteInFlight(s.db, found, newId, m.event, m.tenant, url);
            WriteAttemptStep(ReadExistingStep(With(s, pid, On(url, mid, m, Upserting)), pid, found), pid, newId) ==
            With(s.(db := db), pid, On(url, mid, m, Preparing(ClaimOf(db, if found.Some? then found.value else newId))))
  {
    Updated(s, pid, On(url, mid, m, Upserting), On(url, mid, m, Writing(found)));
    var db := WriteInFlight(s.db, found, newId, m.event, m.tenant, url);
    var claim := ClaimOf(db, if found.Some? then found.value else newId);
    Updated(s.(db := db), pid, On(url, mid, m, Writing(found)), On(url, mid, m, Preparing(claim)));
  }

  function ClaimOf(db: Database, d: DeliveryId): Claim
    requires d in db.deliveries
  {
    Claim(d, db.deliveries[d].event, db.deliveries[d].tenant, db.deliveries[d].attempts)
  }

  lemma PrepareAt(s: State, pid: Pid, url: string, mid: MessageId, m: Message, claim: Claim, ok: bool, error: string)
    ensures PrepareStep(With(s, pid, On(url, mid, m, Preparing(claim))), pid, ok, error) ==
            With(s, pid, On(url, mid, m, PreparePhase(s.archive, m, claim, ok, error)))
  {
    Updated(s, pid, On(url, mid, m, Preparing(claim)), On(url, mid, m, PreparePhase(s.archive, m, claim, ok, error)));
  }

  lemma CallAt(s: State, pid: Pid, url: string, mid: MessageId, m: Message, claim: Claim, payload: Payload,
               answered: bool, seen: bool, error: string)
    ensures CallStep(With(s, pid, On(url, mid, m, Sending(claim, payload))), pid, answered, seen, error) ==
            With(s.(posts := s.posts + [Post(url, m.event, m.tenant, m.kind, payload, answered)]), pid,
                 On(url, mid, m, if answered && seen then Succeeding(claim) else Failing(claim, error)))
  {
    Updated(s.(posts := s.posts + [Post(url, m.event, m.tenant, m.kind, payload, answered)]), pid,
            On(url, mid, m, Sending(claim, payload)),
            On(url, mid, m, if answered && seen then Succeeding(claim) else Failing(claim, error)));
  }

  lemma SucceedAt(s: State, pid: Pid, url: string, mid: MessageId, m: Message, claim: Claim)
    requires claim.delivery in s.db.deliveries
    ensures SucceedStep(With(s, pid, On(url, mid, m, Succeeding(claim))), pid) ==
            With(s.(db := MarkSucceeded(s.db, claim.delivery)), pid, On(url, mid, m, Acknowledging))
  {
    Updated(s.(db := MarkSucceeded(s.db, claim.delivery)), pid,
            On(url, mid, m, Succeeding(claim)), On(url, mid, m, Acknowledging));
  }

  lemma DecideAt(c: Config, s: State, pid: Pid, url: string, mid: MessageId, m: Message, claim: Claim, error: string)
    ensures DecideStep(c, With(s, pid, On(url, mid, m, Failing(claim, error))), pid) ==
            With(s, pid, On(url, mid, m, DecidePhase(c, claim, error)))
  {
    Updated(s, pid, On(url, mid, m, Failing(claim, error)), On(url, mid, m, DecidePhase(c, claim, error)));
  }

  lemma RetryAt(s: State, pid: Pid, url: string, mid: MessageId, m: Message, claim: Claim, error: string, next: int)
    requires claim.delivery in s.db.deliveries
    ensures RetryStep(With(s, pid, On(url, mid, m, Retrying(claim, error))), pid, next) ==
            With(s.(db := MarkFailed(s.db, claim.delivery, error, next)), pid, On(url, mid, m, Deferring))
  {
    Updated(s.(db := MarkFailed(s.db, claim.delivery, error, next)), pid,
            On(url, mid, m, Retrying(claim, error)), On(url, mid, m, Deferring));
  }

  function DeadLetterArchive(m: Message): ArchiveKey {
    if m.key.Some? then m.key.value else DeadLetterKey(m.event)
  }

  function Archived(archive: map<ArchiveKey, Payload>, m: Message): map<ArchiveKey, Payload> {
    if m.key.Some? then archive else archive[DeadLetterKey(m.event) := m.payload]
  }

  function DeadLetterOf(claim: Claim, url: string, error: string, key: ArchiveKey): DeadLetterRow {
    DeadLetterRow(claim.event, claim.tenant, url, Some(Clip(error)), claim.attempts, key)
  }

  lemma ArchiveAt(s: State, pid: Pid, url: string, mid: MessageId, m: Message, claim: Claim, error: string)
    ensures ArchiveStep(With(s, pid, On(url, mid, m, Archiving(claim, error))), pid) ==
            With(s.(archive := Archived(s.archive, m)), pid,
                 On(url, mid, m, Burying(claim, error, DeadLetterArchive(m))))
  {
    Updated(s.(archive := Archived(s.archive, m)), pid,
            On(url, mid, m, Archiving(claim, error)), On(url, mid, m, Burying(claim, error, DeadLetterArchive(m))));
  }

  lemma BuryAt(s: State, pid: Pid, url: string, mid: MessageId, m: Message, claim: Claim, error: string,
               key: ArchiveKey)
    ensures BuryStep(With(s, pid, On(url, mid, m, Burying(claim, error, key))), pid) ==
            With(s.(db := CreateDeadLetter(s.db, claim.delivery, DeadLetterOf(claim, url, error, key))), pid,
                 On(url, mid, m, Marking(claim, error)))
  {
    Updated(s.(db := CreateDeadLetter(s.db, claim.delivery, DeadLetterOf(claim, url, error, key))), pid,
            On(url, mid, m, Burying(claim, error, key)), On(url, mid, m, Marking(claim, error)));
  }

  lemma MarkDeadAt(s: State, pid: Pid, url: string, mid: MessageId, m: Message, claim: Claim, error: string)
    requires claim.delivery in s.db.deliveries
    ensures MarkDeadStep(With(s, pid, On(url, mid, m, Marking(claim, error))), pid) ==
            With(s.(db := MarkDeadLettered(s.db, claim.delivery, error)), pid, On(url, mid, m, Acknowledging))
  {
    Updated(s.(db := MarkDeadLettered(s.db, claim.delivery, error)), pid,
            On(url, mid, m, Marking(claim, error)), On(url, mid, m, Acknowledging));
  }

  lemma DeleteAt(s: State, pid: Pid, url: string, mid: MessageId, body: Body)
    requires Absent(s, pid)
    ensures DeleteStep(With(s, pid, Worker(url, mid, body, Acknowledging)), pid) == s.(live := s.live - {mid})
  {
    Ended(s.(live := s.live - {mid}), pid, Worker(url, mid, body, Acknowledging));
  }

  /** A handling that ends without the delivery in flight leaves nothing behind. */
  lemma CrashAt(s: State, pid: Pid, p: Proc)
    requires Absent(s, pid) && !Holds(p)
    ensures CrashStep(With(s, pid, p), pid) == s
  {
    Ended(s, pid, p);
  }

  // ---- pieces of a handling ----

  /** The tables after createDeadLetter and markDeadLettered. */
  function DeadLettered(db: Database, url: string, m: Message, claim: Claim, error: string): Database
    requires claim.delivery in db.deliveries
  {
    MarkDeadLettered(CreateDeadLetter(db, claim.delivery, DeadLetterOf(claim, url, error, DeadLetterArchive(m))),
                     claim.delivery, error)
  }

  lemma DeadLetteredSteps(db: Database, url: string, m: Message, claim: Claim, error: string)
    requires claim.delivery in db.deliveries
    ensures var t := CreateDeadLetter(db, claim.delivery, DeadLetterOf(claim, url, error, DeadLetterArchive(m)));
            t.deliveries == db.deliveries &&
            MarkDeadLettered(t, claim.delivery, error) == DeadLettered(db, url, m, claim, error)
  {
  }

  lemma BuryRun(c: Config, s: State, start: State, before: seq<Action>, pid: Pid, url: string, mid: MessageId,
                m: Message, claim: Claim, error: string)
    requires After(c, start, before) == With(s, pid, On(url, mid, m, Archiving(claim, error)))
    ensures var archived := s.(archive := Archived(s.archive, m));
            After(c, start, before + [Archive(pid)] + [Bury(pid)]) ==
            With(archived.(db := CreateDeadLetter(s.db, claim.delivery,
                                                  DeadLetterOf(claim, url, error, DeadLetterArchive(m)))),
                 pid, On(url, mid, m, Marking(claim, error)))
  {
    hide *;
    AfterOne(c, start, before, Archive(pid));
    NextIs(c, After(c, start, before), Archive(pid));
    ArchiveAt(s, pid, url, mid, m, claim, error);
    AfterOne(c, start, before + [Archive(pid)], Bury(pid));
    NextIs(c, After(c, start, before + [Archive(pid)]), Bury(pid));
    BuryAt(s.(archive := Archived(s.archive, m)), pid, url, mid, m, claim, error, DeadLetterArchive(m));
  }

  lemma DeadLetterRun(c: Config, s: State, start: State, before: seq<Action>, pid: Pid, url: string, mid: MessageId,
                      m: Message, claim: Claim, error: string)
    requires claim.delivery in s.db.deliveries
    requires After(c, start, before) == With(s, pid, On(url, mid, m, Archiving(claim, error)))
    ensures After(c, start, before + [Archive(pid)] + [Bury(pid)] + [MarkDead(pid)]) ==
            With(s.(archive := Archived(s.archive, m), db := DeadLettered(s.db, url, m, claim, error)),
                 pid, On(url, mid, m, Acknowledging))
  {
    var created := CreateDeadLetter(s.db, claim.delivery, DeadLetterOf(claim, url, error, DeadLetterArchive(m)));
    assert created.deliveries == s.db.deliveries
           && DeadLettered(s.db, url, m, claim, error) == MarkDeadLettered(created, claim.delivery, error);
    hide *;
    BuryRun(c, s, start, before, pid, url, mid, m, claim, error);
    AfterOne(c, start, before + [Archive(pid)] + [Bury(pid)], MarkDead(pid));
    NextIs(c, After(c, start, before + [Archive(pid)] + [Bury(pid)]), MarkDead(pid));
    MarkDeadAt(s.(archive := Archived(s.archive, m), db := created), pid, url, mid, m, claim, error);
  }

  lemma RetryRun(c: Config, s: State, start: State, before: seq<Action>, pid: Pid, url: string, mid: MessageId,
                 m: Message, claim: Claim, error: string, next: int)
    requires claim.delivery in s.db.deliveries
    requires After(c, start, before) == With(s, pid, On(url, mid, m, Retrying(claim, error)))
    ensures After(c, start, before + [Retry(pid, next)]) ==
            With(s.(db := MarkFailed(s.db, claim.delivery, error, next)), pid, On(url, mid, m, Deferring))
  {
    hide *;
    AfterOne(c, start, before, Retry(pid, next));
    NextIs(c, After(c, start, before), Retry(pid, next));
    RetryAt(s, pid, url, mid, m, claim, error, next);
  }

  lemma DecideRun(c: Config, s: State, start: State, before: seq<Action>, pid: Pid, url: string, mid: MessageId,
                  m: Message, claim: Claim, error: string)
    requires After(c, start, before) == With(s, pid, On(url, mid, m, Failing(claim, error)))
    ensures After(c, start, before + [Decide(pid)]) == With(s, pid, On(url, mid, m, DecidePhase(c, claim, error)))
  {
    hide *;
    AfterOne(c, start, before, Decide(pid));
    NextIs(c, After(c, start, before), Decide(pid));
    DecideAt(c, s, pid, url, mid, m, claim, error);
  }

  lemma LookupRun(c: Config, s: State, start: State, before: seq<Action>, pid: Pid, url: string, mid: MessageId,
                  m: Message, found: Option<DeliveryId>, now: int)
    requires After(c, start, before) == With(s, pid, On(url, mid, m, Admitted)) && IsFirst(s.db, m.event, url, found)
    ensures After(c, start, before + [Lookup(pid, found, now)]) ==
            With(s, pid, On(url, mid, m,
                            if found.None? then Upserting else LookupPhase(s.db.deliveries[found.value], now)))
  {
    hide *;
    AfterOne(c, start, before, Lookup(pid, found, now));
    NextIs(c, After(c, start, before), Lookup(pid, found, now));
    LookupAt(s, pid, url, mid, m, found, now);
  }

  /** upsertInFlight and the preparation. */
  lemma UpsertRun(c: Config, s: State, start: State, before: seq<Action>, pid: Pid, url: string, mid: MessageId,
                  m: Message, existing: Option<DeliveryId>, newId: DeliveryId)
    requires After(c, start, before) == With(s, pid, On(url, mid, m, Upserting))
    requires IsFirst(s.db, m.event, url, existing) && newId !in s.db.deliveries
    ensures var db := WriteInFlight(s.db, existing, newId, m.event, m.tenant, url);
            After(c, start, before + [ReadExisting(pid, existing)] + [WriteAttempt(pid, newId)]) ==
            With(s.(db := db), pid, On(url, mid, m,
                                       Preparing(ClaimOf(db, if existing.Some? then existing.value else newId))))
  {
    hide *;
    AfterOne(c, start, before, ReadExisting(pid, existing));
    NextIs(c, After(c, start, before), ReadExisting(pid, existing));
    AfterOne(c, start, before + [ReadExisting(pid, existing)], WriteAttempt(pid, newId));
    NextIs(c, After(c, start, before + [ReadExisting(pid, existing)]), WriteAttempt(pid, newId));
    UpsertAt(s, pid, url, mid, m, existing, newId);
  }

  lemma PrepareRun(c: Config, s: State, start: State, before: seq<Action>, pid: Pid, url: string, mid: MessageId,
                   m: Message, claim: Claim, ok: bool, error: string)
    requires After(c, start, before) == With(s, pid, On(url, mid, m, Preparing(claim)))
    ensures After(c, start, before + [Prepare(pid, ok, error)]) ==
            With(s, pid, On(url, mid, m, PreparePhase(s.archive, m, claim, ok, error)))
  {
    hide *;
    AfterOne(c, start, before, Prepare(pid, ok, error));
    NextIs(c, After(c, start, before), Prepare(pid, ok, error));
    PrepareAt(s, pid, url, mid, m, claim, ok, error);
  }

  lemma CallRun(c: Config, s: State, start: State, before: seq<Action>, pid: Pid, url: string, mid: MessageId,
                m: Message, claim: Claim, payload: Payload, answered: bool, seen: bool, error: string)
    requires After(c, start, before) == With(s, pid, On(url, mid, m, Sending(claim, payload)))
    ensures After(c, start, before + [Call(pid, answered, seen, error)]) ==
            With(s.(posts := s.posts + [Post(url, m.event, m.tenant, m.kind, payload, answered)]), pid,
                 On(url, mid, m, if answered && seen then Succeeding(claim) else Failing(claim, error)))
  {
    hide *;
    AfterOne(c, start, before, Call(pid, answered, seen, error));
    NextIs(c, After(c, start, before), Call(pid, answered, seen, error));
    CallAt(s, pid, url, mid, m, claim, payload, answered, seen, error);
  }

  lemma SucceedRun(c: Config, s: State, start: State, before: seq<Action>, pid: Pid, url: string, mid: MessageId,
                   m: Message, claim: Claim)
    requires claim.delivery in s.db.deliveries
    requires After(c, start, before) == With(s, pid, On(url, mid, m, Succeeding(claim)))
    ensures After(c, start, before + [Succeed(pid)]) ==
            With(s.(db := MarkSucceeded(s.db, claim.delivery)), pid, On(url, mid, m, Acknowledging))
  {
    hide *;
    AfterOne(c, start, before, Succeed(pid));
    NextIs(c, After(c, start, before), Succeed(pid));
    SucceedAt(s, pid, url, mid, m, claim);
  }

  lemma DeleteRun(c: Config, s: State, start: State, before: seq<Action>, pid: Pid, url: string, mid: MessageId,
                  body: Body)
    requires Absent(s, pid) && After(c, start, before) == With(s, pid, Worker(url, mid, body, Acknowledging))
    ensures After(c, start, before + [Delete(pid)]) == s.(live := s.live - {mid})
  {
    hide *;
    AfterOne(c, start, before, Delete(pid));
    NextIs(c, After(c, start, before), Delete(pid));
    DeleteAt(s, pid, url, mid, body);
  }

  lemma CrashRun(c: Config, s: State, start: State, before: seq<Action>, pid: Pid, p: Proc)
    requires Absent(s, pid) && !Holds(p) && After(c, start, before) == With(s, pid, p)
    ensures After(c, start, before + [Crash(pid)]) == s
  {
    hide *;
    AfterOne(c, start, before, Crash(pid));
    NextIs(c, After(c, start, before), Crash(pid));
    CrashAt(s, pid, p);
  }

  // ---- the program ----

  /** What the world answers to one handling: the circuit and the rate limit, the clock, the identifier
      of a new row, whether the secret and the archive could be read, the webhook, and the delete. */
  datatype Answers = Answers(circuitAllows: bool, tokenGranted: bool, now: int, newId: DeliveryId, prepared: bool,
                             answered: bool, seen: bool, error: string, next: int, deleted: bool)

  datatype Handled =
    | Hid                                   // deferred or not due
    | Removed(deleted: bool)                // poison, or complete already
    | Retried(delivery: DeliveryId)
    | Died(delivery: DeliveryId, deleted: bool)
    | Won(delivery: DeliveryId)             // an acknowledgement is returned

  /** The circuit or, for a message that parses, the rate limit refuses. */
  predicate Refused(body: Body, a: Answers) {
    !a.circuitAllows || (body.Parsed? && !a.tokenGranted)
  }

  /** The payload could be loaded. */
  predicate Prepared(archive: map<ArchiveKey, Payload>, m: Message, a: Answers) {
    a.prepared && (m.key.None? || m.key.value in archive)
  }

  /** The destination's 2xx answer is seen. */
  predicate Delivers(archive: map<ArchiveKey, Payload>, m: Message, a: Answers) {
    Prepared(archive, m, a) && a.answered && a.seen
  }

  /** The calls of an attempt: one, with the loaded payload, or none. */
  function Posted(archive: map<ArchiveKey, Payload>, url: string, m: Message, a: Answers): seq<Post> {
    if !Prepared(archive, m, a) then []
    else [Post(url, m.event, m.tenant, m.kind, if m.key.None? then m.payload else archive[m.key.value], a.answered)]
  }

  /** The message is taken from the queue when it is complete, poison or dead-lettered, and only then. */
  predicate Leaves(live: set<MessageId>, now: set<MessageId>, mid: MessageId, a: Answers, h: Handled) {
    && (h.Removed? || h.Died? ==> h.deleted == a.deleted)
    && now == if (h.Removed? || h.Died?) && a.deleted then live - {mid} else live
  }

  /** Which way a handling goes, by what it reads and what it is answered. */
  ghost predicate Decided(db: Database, archive: map<ArchiveKey, Payload>, url: string, body: Body, a: Answers,
                          h: Handled) {
    if Refused(body, a) then h.Hid?
    else if body.Poison? then h.Removed?
    else exists found :: IsFirst(db, body.message.event, url, found) && Follows(db, archive, found, body.message, a, h)
  }

  /** The delivery is not complete, and its retry time, if it has one, has come. */
  predicate Begins(row: DeliveryRow, now: int) {
    && row.status != SUCCEEDED && row.status != DEAD_LETTERED
    && (row.nextAttemptAt.None? || row.nextAttemptAt.value <= now)
  }

  ghost predicate Follows(db: Database, archive: map<ArchiveKey, Payload>, found: Option<DeliveryId>, m: Message,
                          a: Answers, h: Handled)
    requires found.Some? ==> found.value in db.deliveries
  {
    match found
    case None => !h.Removed? && !h.Hid? && (h.Won? <==> Delivers(archive, m, a))
    case Some(d) =>
      var row := db.deliveries[d];
      && (h.Removed? <==> row.status == SUCCEEDED || row.status == DEAD_LETTERED)
      && (h.Hid? <==> row.status != SUCCEEDED && row.status != DEAD_LETTERED &&
                      row.nextAttemptAt.Some? && row.nextAttemptAt.value > a.now)
      && (h.Won? <==> Begins(row, a.now) && Delivers(archive, m, a))
  }

  /** Only the rows of the delivery `d` are written. */
  ghost predicate OnlyOf(d: DeliveryId, was: Database, db: Database) {
    && db.events == was.events && db.outbox == was.outbox && db.replays == was.replays
    && (forall x | x != d :: x in db.deliveries <==> x in was.deliveries)
    && (forall x | x != d && x in was.deliveries :: db.deliveries[x] == was.deliveries[x])
    && (forall x | x != d :: x in db.deadLetters <==> x in was.deadLetters)
    && (forall x | x != d && x in was.deadLetters :: db.deadLetters[x] == was.deadLetters[x])
  }

  /** The columns that no outcome changes. */
  predicate SameDelivery(was: DeliveryRow, row: DeliveryRow) {
    row.event == was.event && row.tenant == was.tenant && row.url == was.url && row.attempts == was.attempts
  }

  /** What an attempt leaves in the delivery's row and, when it gives up, in the dead letter and the archive. */
  ghost predicate Recorded(c: Config, was: Database, db: Database, archive: map<ArchiveKey, Payload>, m: Message,
                           url: string, error: string, next: int, attempts: nat, h: Handled) {
    (h.Retried? || h.Died? || h.Won?) &&
    h.delivery in db.deliveries && OnlyOf(h.delivery, was, db) &&
    var row := db.deliveries[h.delivery];
    && row.attempts == attempts && row.event == m.event && row.url == url
    && (h.Won? ==> row.status == SUCCEEDED && row.lastError == None)
    && (h.Retried? ==> row.status == FAILED && row.lastError == Some(Clip(error)) && row.nextAttemptAt == Some(next)
                       && attempts < Limit(c.maxAttempts))
    && (!h.Died? ==> db.deadLetters == was.deadLetters)
    && (h.Died? ==> row.status == DEAD_LETTERED && row.lastError == Some(Clip(error)) && row.nextAttemptAt == None
                    && attempts >= Limit(c.maxAttempts)
                    && h.delivery in db.deadLetters
                    && LetterIs(was, db, h.delivery, m, error, attempts)
                    && (m.key.None? ==>
                          DeadLetterKey(m.event) in archive && archive[DeadLetterKey(m.event)] == m.payload))
  }

  /** The dead letter of `d`: a new one has the delivery's event, tenant and destination, an older one keeps its own,
      and both take the error, the attempts and the archive of this attempt. */
  predicate LetterIs(was: Database, db: Database, d: DeliveryId, m: Message, error: string, attempts: nat)
    requires d in db.deliveries && d in db.deadLetters
  {
    var row, letter := db.deliveries[d], db.deadLetters[d];
    && letter.lastError == Some(Clip(error)) && letter.attempts == attempts
    && letter.key == (if m.key.Some? then m.key.value else DeadLetterKey(m.event))
    && (d !in was.deadLetters ==> letter.event == row.event && letter.tenant == row.tenant && letter.url == row.url)
    && (d in was.deadLetters ==> letter.event == was.deadLetters[d].event &&
                                 letter.tenant == was.deadLetters[d].tenant && letter.url == was.deadLetters[d].url)
  }

  lemma UpsertedRow(db: Database, existing: Option<DeliveryId>, newId: DeliveryId, m: Message, url: string)
    requires IsFirst(db, m.event, url, existing) && newId !in db.deliveries
    ensures var t := WriteInFlight(db, existing, newId, m.event, m.tenant, url);
            var d := if existing.Some? then existing.value else newId;
            Matches(t.deliveries[d], m.event, url) && OnlyOf(d, db, t) && t.deadLetters == db.deadLetters &&
            ClaimOf(t, d).attempts == (if d in db.deliveries then db.deliveries[d].attempts + 1 else 1)
  {
  }

  /** The tables after the dead letter and the delivery are written. */
  lemma DeadLetteredIs(db: Database, archive: map<ArchiveKey, Payload>, url: string, m: Message, claim: Claim,
                       error: string)
    requires claim.delivery in db.deliveries && claim == ClaimOf(db, claim.delivery)
    requires db.deliveries[claim.delivery].url == url
    ensures var t := DeadLettered(db, url, m, claim, error); var d := claim.delivery;
            && d in t.deliveries && d in t.deadLetters && OnlyOf(d, db, t)
            && LetterIs(db, t, d, m, error, claim.attempts)
            && t.deliveries[d] ==
               db.deliveries[d].(status := DEAD_LETTERED, lastError := Some(Clip(error)), nextAttemptAt := None)
    ensures Archived(archive, m) == if m.key.Some? then archive else archive[DeadLetterKey(m.event) := m.payload]
  {
    hide Clip;
  }

  lemma OnlyOfBoth(d: DeliveryId, was: Database, db: Database, t: Database)
    requires OnlyOf(d, was, db) && OnlyOf(d, db, t)
    ensures OnlyOf(d, was, t)
  {
  }

  lemma LetterSince(was: Database, db: Database, t: Database, d: DeliveryId, m: Message, error: string, attempts: nat)
    requires d in t.deliveries && d in t.deadLetters && LetterIs(db, t, d, m, error, attempts)
    requires db.deadLetters == was.deadLetters
    ensures LetterIs(was, t, d, m, error, attempts)
  {
  }

  lemma DiedRecorded(c: Config, was: Database, db: Database, archive: map<ArchiveKey, Payload>, m: Message,
                     url: string, next: int, claim: Claim, error: string, deleted: bool)
    requires claim.delivery in db.deliveries && claim == ClaimOf(db, claim.delivery)
             && IsExhausted(claim.attempts, c.maxAttempts)
    requires Matches(db.deliveries[claim.delivery], m.event, url)
    requires OnlyOf(claim.delivery, was, db) && db.deadLetters == was.deadLetters
    ensures Recorded(c, was, DeadLettered(db, url, m, claim, error), Archived(archive, m), m, url, error, next,
                     claim.attempts, Died(claim.delivery, deleted))
  {
    DeadLetteredIs(db, archive, url, m, claim, error);
    var t := DeadLettered(db, url, m, claim, error);
    OnlyOfBoth(claim.delivery, was, db, t);
    LetterSince(was, db, t, claim.delivery, m, error, claim.attempts);
    hide DeadLettered, Archived, OnlyOf, LetterIs, Clip;
  }

  lemma RetriedRecorded(c: Config, was: Database, db: Database, archive: map<ArchiveKey, Payload>, m: Message,
                        url: string, next: int, claim: Claim, error: string)
    requires claim.delivery in db.deliveries && claim == ClaimOf(db, claim.delivery)
             && !IsExhausted(claim.attempts, c.maxAttempts)
    requires Matches(db.deliveries[claim.delivery], m.event, url)
    requires OnlyOf(claim.delivery, was, db) && db.deadLetters == was.deadLetters
    ensures Recorded(c, was, MarkFailed(db, claim.delivery, error, next), archive, m, url, error, next, claim.attempts,
                     Retried(claim.delivery))
  {
    hide Clip;
  }

  lemma WonRecorded(c: Config, was: Database, db: Database, archive: map<ArchiveKey, Payload>, m: Message, url: string,
                    error: string, next: int, claim: Claim)
    requires claim.delivery in db.deliveries && claim == ClaimOf(db, claim.delivery)
    requires Matches(db.deliveries[claim.delivery], m.event, url)
    requires OnlyOf(claim.delivery, was, db) && db.deadLetters == was.deadLetters
    ensures Recorded(c, was, MarkSucceeded(db, claim.delivery), archive, m, url, error, next, claim.attempts,
                     Won(claim.delivery))
  {
  }

  lemma LookupFollows(db: Database, archive: map<ArchiveKey, Payload>, found: Option<DeliveryId>, m: Message,
                      a: Answers)
    requires found.Some? ==> found.value in db.deliveries
    ensures found.Some? && (db.deliveries[found.value].status == SUCCEEDED ||
                            db.deliveries[found.value].status == DEAD_LETTERED) ==>
              Follows(db, archive, found, m, a, Removed(a.deleted))
    ensures found.Some? && db.deliveries[found.value].status != SUCCEEDED &&
            db.deliveries[found.value].status != DEAD_LETTERED && !Begins(db.deliveries[found.value], a.now) ==>
              Follows(db, archive, found, m, a, Hid)
  {
  }

  lemma AttemptFollows(db: Database, archive: map<ArchiveKey, Payload>, found: Option<DeliveryId>, m: Message,
                       a: Answers, h: Handled)
    requires found.Some? ==> found.value in db.deliveries && Begins(db.deliveries[found.value], a.now)
    requires (h.Retried? || h.Died? || h.Won?) && (h.Won? <==> Delivers(archive, m, a))
    ensures Follows(db, archive, found, m, a, h)
  {
  }

  lemma AttemptDecided(db: Database, archive: map<ArchiveKey, Payload>, url: string, found: Option<DeliveryId>,
                       body: Body, a: Answers, h: Handled)
    requires body.Parsed? && !Refused(body, a) && IsFirst(db, body.message.event, url, found)
    requires found.Some? ==> found.value in db.deliveries && Begins(db.deliveries[found.value], a.now)
    requires (h.Retried? || h.Died? || h.Won?) && (h.Won? <==> Delivers(archive, body.message, a))
    ensures Decided(db, archive, url, body, a, h)
  {
    AttemptFollows(db, archive, found, body.message, a, h);
    hide Follows, IsFirst, Delivers, Begins;
  }

  lemma ArchivedIs(archive: map<ArchiveKey, Payload>, m: Message)
    ensures Archived(archive, m) == if m.key.Some? then archive else archive[DeadLetterKey(m.event) := m.payload]
  {
  }

  class Handler {
    const c: Config
    var db: Database
    var archive: map<ArchiveKey, Payload>
    var live: set<MessageId>
    var posts: seq<Post>

    constructor (c: Config, s: State)
      ensures this.c == c && Over(s) == s
    {
      this.c := c;
      db, archive, live, posts := s.db, s.archive, s.live, s.posts;
    }

    /** The whole system, of which this object holds what a worker changes. */
    function Over(rest: State): State
      reads this
    {
      rest.(db := db, archive := archive, live := live, posts := posts)
    }

    // ---- the repositories ----

    method FindByEventAndUrl(event: EventId, url: string) returns (found: Option<DeliveryId>)
      ensures IsFirst(db, event, url, found) && (found.Some? ==> found.value in db.deliveries)
    {
      found := None;
      if exists d :: d in db.deliveries && Matches(db.deliveries[d], event, url) {
        var d :| d in db.deliveries && Matches(db.deliveries[d], event, url);
        found := Some(d);
      }
    }

    method UpsertInFlight(event: EventId, tenant: TenantId, url: string, newId: DeliveryId)
      returns (claim: Claim, existing: Option<DeliveryId>)
      requires newId !in db.deliveries
      modifies this`db
      ensures IsFirst(old(db), event, url, existing)
              && db == WriteInFlight(old(db), existing, newId, event, tenant, url)
      ensures claim.delivery == (if existing.Some? then existing.value else newId) && claim.delivery in db.deliveries
      ensures claim == ClaimOf(db, claim.delivery)
      ensures OnlyOf(claim.delivery, old(db), db) && db.deadLetters == old(db.deadLetters)
      ensures var row := db.deliveries[claim.delivery];
              && row.status == IN_FLIGHT && row.lastError == None && row.nextAttemptAt == None
              && row.event == event && row.url == url
              && row.tenant == (if existing.Some? then old(db.deliveries)[existing.value].tenant else tenant)
              && row.attempts == (if existing.Some? then old(db.deliveries)[existing.value].attempts + 1 else 1)
    {
      existing := FindByEventAndUrl(event, url);
      if existing.Some? {
        var row := db.deliveries[existing.value];
        row := row.(status := IN_FLIGHT, attempts := row.attempts + 1);
        row := row.(lastError := None, nextAttemptAt := None);
        db := db.(deliveries := db.deliveries[existing.value := row]);
        claim := ClaimOf(db, existing.value);
      } else {
        db := db.(deliveries := db.deliveries[newId := DeliveryRow(event, tenant, url, IN_FLIGHT, 1, None, None)]);
        claim := ClaimOf(db, newId);
      }
    }

    method MarkSucceeded(id: DeliveryId)
      requires id in db.deliveries
      modifies this`db
      ensures db == Store.MarkSucceeded(old(db), id)
      ensures id in db.deliveries && db.deliveries[id].status == SUCCEEDED && db.deliveries[id].lastError == None
              && SameDelivery(old(db.deliveries)[id], db.deliveries[id])
              && db.deliveries[id].nextAttemptAt == old(db.deliveries)[id].nextAttemptAt
      ensures OnlyOf(id, old(db), db) && db.deadLetters == old(db.deadLetters)
    {
      var row := db.deliveries[id];
      db := db.(deliveries := db.deliveries[id := row.(status := SUCCEEDED, lastError := None)]);
    }

    method MarkFailed(id: DeliveryId, error: string, nextAttempt: int)
      requires id in db.deliveries
      modifies this`db
      ensures db == Store.MarkFailed(old(db), id, error, nextAttempt)
      ensures id in db.deliveries && db.deliveries[id].status == FAILED
              && db.deliveries[id].lastError == Some(Clip(error))
              && db.deliveries[id].nextAttemptAt == Some(nextAttempt)
              && SameDelivery(old(db.deliveries)[id], db.deliveries[id])
      ensures OnlyOf(id, old(db), db) && db.deadLetters == old(db.deadLetters)
    {
      var row := db.deliveries[id];
      row := row.(status := FAILED, lastError := Some(Clip(error)), nextAttemptAt := Some(nextAttempt));
      db := db.(deliveries := db.deliveries[id := row]);
    }

    method MarkDeadLettered(id: DeliveryId, error: string)
      requires id in db.deliveries
      modifies this`db
      ensures db == Store.MarkDeadLettered(old(db), id, error)
      ensures id in db.deliveries && db.deliveries[id].status == DEAD_LETTERED
              && db.deliveries[id].lastError == Some(Clip(error)) && db.deliveries[id].nextAttemptAt == None
              && SameDelivery(old(db.deliveries)[id], db.deliveries[id])
      ensures OnlyOf(id, old(db), db) && db.deadLetters == old(db.deadLetters)
    {
      var row := db.deliveries[id];
      row := row.(status := DEAD_LETTERED, lastError := Some(Clip(error)), nextAttemptAt := None);
      db := db.(deliveries := db.deliveries[id := row]);
    }

    method CreateDeadLetter(delivery: DeliveryId, input: DeadLetterRow)
      modifies this`db
      ensures db == Store.CreateDeadLetter(old(db), delivery, input) && db.deliveries == old(db.deliveries)
      ensures OnlyOf(delivery, old(db), db) && delivery in db.deadLetters
      ensures var letter := db.deadLetters[delivery];
              && letter.lastError == input.lastError && letter.attempts == input.attempts && letter.key == input.key
              && (delivery !in old(db.deadLetters) ==>
                    letter.event == input.event && letter.tenant == input.tenant && letter.url == input.url)
              && (delivery in old(db.deadLetters) ==>
                    var was := old(db.deadLetters)[delivery];
                    letter.event == was.event && letter.tenant == was.tenant && letter.url == was.url)
    {
      var row := input;
      if delivery in db.deadLetters {
        row := db.deadLetters[delivery].(lastError := input.lastError, attempts := input.attempts, key := input.key);
      }
      db := db.(deadLetters := db.deadLetters[delivery := row]);
    }

    // ---- the helpers of handleMessage ----

    method ArchivePayload(m: Message) returns (key: ArchiveKey)
      modifies this`archive
      ensures key == DeadLetterArchive(m) && archive == Archived(old(archive), m)
      ensures if m.key.Some? then key == m.key.value && archive == old(archive)
              else key == DeadLetterKey(m.event) && archive == old(archive)[DeadLetterKey(m.event) := m.payload]
    {
      if m.key.Some? {
        return m.key.value;
      }
      key := DeadLetterKey(m.event);
      archive := archive[key := m.payload];
    }

    method AcknowledgeMessage(mid: MessageId, deleted: bool)
      modifies this`live
      ensures live == if deleted then old(live) - {mid} else old(live)
    {
      if deleted {
        live := live - {mid};
      }
    }

    /** Archive, then the dead letter, then the delivery, then the queue. */
    method MoveToDeadLetter(ghost pid: Pid, mid: MessageId, url: string, m: Message, claim: Claim, error: string,
                            deleted: bool, ghost rest: State, ghost start: State, ghost before: seq<Action>)
      returns (ghost run: seq<Action>)
      requires Absent(rest, pid) && claim.delivery in db.deliveries && claim == ClaimOf(db, claim.delivery)
      requires db.deliveries[claim.delivery].url == url
      requires After(c, start, before) == With(Over(rest), pid, On(url, mid, m, Archiving(claim, error)))
      modifies this`db, this`archive, this`live
      ensures After(c, start, run) == Over(rest)
      ensures claim.delivery in db.deliveries && claim.delivery in db.deadLetters
              && OnlyOf(claim.delivery, old(db), db) && LetterIs(old(db), db, claim.delivery, m, error, claim.attempts)
      ensures db.deliveries[claim.delivery] ==
              old(db.deliveries)[claim.delivery].(status := DEAD_LETTERED, lastError := Some(Clip(error)),
                                                  nextAttemptAt := None)
      ensures archive == if m.key.Some? then old(archive) else old(archive)[DeadLetterKey(m.event) := m.payload]
      ensures db == DeadLettered(old(db), url, m, claim, error) && archive == Archived(old(archive), m)
      ensures live == if deleted then old(live) - {mid} else old(live)
    {
      DeadLetteredIs(db, archive, url, m, claim, error);
      hide After, With, Store.MarkDeadLettered, Archived, DeadLettered, OnlyOf, LetterIs, ClaimOf;
      DeadLetterRun(c, Over(rest), start, before, pid, url, mid, m, claim, error);
      var key := ArchivePayload(m);
      DeadLetteredSteps(db, url, m, claim, error);
      CreateDeadLetter(claim.delivery, DeadLetterOf(claim, url, error, key));
      MarkDeadLettered(claim.delivery, error);
      run := Acknowledge(pid, mid, url, Parsed(m), deleted, rest, start,
                         before + [Archive(pid)] + [Bury(pid)] + [MarkDead(pid)]);
    }

    method Acknowledge(ghost pid: Pid, mid: MessageId, ghost url: string, ghost body: Body, deleted: bool,
                       ghost rest: State, ghost start: State, ghost before: seq<Action>)
      returns (ghost run: seq<Action>)
      requires Absent(rest, pid)
      requires After(c, start, before) == With(Over(rest), pid, Worker(url, mid, body, Acknowledging))
      modifies this`live
      ensures After(c, start, run) == Over(rest)
      ensures live == if deleted then old(live) - {mid} else old(live)
    {
      hide After, With;
      DeleteRun(c, Over(rest), start, before, pid, url, mid, body);
      CrashRun(c, Over(rest), start, before, pid, Worker(url, mid, body, Acknowledging));
      run := before + [if deleted then Delete(pid) else Crash(pid)];
      AcknowledgeMessage(mid, deleted);
    }

    /** hideUntil only changes when the queue shows the message again. */
    ghost method HideUntil(pid: Pid, mid: MessageId, url: string, body: Body, rest: State, start: State,
                           before: seq<Action>)
      returns (run: seq<Action>)
      requires Absent(rest, pid)
      requires After(c, start, before) == With(Over(rest), pid, Worker(url, mid, body, Deferring))
      ensures After(c, start, run) == Over(rest)
    {
      hide After, With;
      CrashRun(c, Over(rest), start, before, pid, Worker(url, mid, body, Deferring));
      run := before + [Crash(pid)];
    }

    /** An attempt failed: the last one moves the delivery to the dead letters, any other is retried. */
    method FailAttempt(ghost pid: Pid, mid: MessageId, url: string, m: Message, claim: Claim, a: Answers,
                       ghost was: Database, ghost rest: State, ghost start: State, ghost before: seq<Action>)
      returns (result: Handled, ghost run: seq<Action>)
      requires Absent(rest, pid) && claim.delivery in db.deliveries && claim == ClaimOf(db, claim.delivery)
      requires Matches(db.deliveries[claim.delivery], m.event, url)
      requires OnlyOf(claim.delivery, was, db) && db.deadLetters == was.deadLetters
      requires After(c, start, before) == With(Over(rest), pid, On(url, mid, m, Failing(claim, a.error)))
      modifies this`db, this`archive, this`live
      ensures (result.Retried? || result.Died?) && result.delivery == claim.delivery
      ensures After(c, start, run) == Over(rest)
      ensures Leaves(old(live), live, mid, a, result)
      ensures Recorded(c, was, db, archive, m, url, a.error, a.next, claim.attempts, result)
      ensures archive == if result.Died? then Archived(old(archive), m) else old(archive)
    {
      hide After, With, Store.MarkFailed, DeadLettered, Archived, Recorded, OnlyOf;
      DecideRun(c, Over(rest), start, before, pid, url, mid, m, claim, a.error);
      if IsExhausted(claim.attempts, c.maxAttempts) {
        ghost var tables := db;
        ghost var held := archive;
        run := MoveToDeadLetter(pid, mid, url, m, claim, a.error, a.deleted, rest, start, before + [Decide(pid)]);
        result := Died(claim.delivery, a.deleted);
        DiedRecorded(c, was, tables, held, m, url, a.next, claim, a.error, a.deleted);
      } else {
        RetryRun(c, Over(rest), start, before + [Decide(pid)], pid, url, mid, m, claim, a.error, a.next);
        RetriedRecorded(c, was, db, archive, m, url, a.next, claim, a.error);
        MarkFailed(claim.delivery, a.error, a.next);
        run := HideUntil(pid, mid, url, Parsed(m), rest, start, before + [Decide(pid)] + [Retry(pid, a.next)]);
        result := Retried(claim.delivery);
      }
    }

    /** upsertInFlight, as two steps of the machine. */
    method BeginAttempt(ghost pid: Pid, mid: MessageId, url: string, m: Message, newId: DeliveryId,
                        ghost rest: State, ghost start: State, ghost before: seq<Action>)
      returns (claim: Claim, ghost run: seq<Action>)
      requires newId !in db.deliveries
      requires After(c, start, before) == With(Over(rest), pid, On(url, mid, m, Upserting))
      modifies this`db
      ensures After(c, start, run) == With(Over(rest), pid, On(url, mid, m, Preparing(claim)))
      ensures claim.delivery in db.deliveries && claim == ClaimOf(db, claim.delivery)
      ensures Matches(db.deliveries[claim.delivery], m.event, url)
      ensures OnlyOf(claim.delivery, old(db), db) && db.deadLetters == old(db.deadLetters)
      ensures claim.attempts ==
              if claim.delivery in old(db).deliveries then old(db).deliveries[claim.delivery].attempts + 1 else 1
    {
      hide After, With, WriteInFlight, ClaimOf, IsFirst, Matches, OnlyOf;
      ghost var was := Over(rest);
      ghost var tables := db;
      var found;
      claim, found := UpsertInFlight(m.event, m.tenant, url, newId);
      UpsertRun(c, was, start, before, pid, url, mid, m, found, newId);
      UpsertedRow(tables, found, newId, m, url);
      run := before + [ReadExisting(pid, found)] + [WriteAttempt(pid, newId)];
    }

    /** loadPayload, as a step of the machine; nothing when it throws. */
    method LoadPayload(ghost pid: Pid, mid: MessageId, url: string, m: Message, claim: Claim, a: Answers,
                       ghost rest: State, ghost start: State, ghost before: seq<Action>)
      returns (payload: Option<Payload>, ghost run: seq<Action>)
      requires After(c, start, before) == With(Over(rest), pid, On(url, mid, m, Preparing(claim)))
      ensures After(c, start, run) ==
              With(Over(rest), pid, On(url, mid, m, if payload.Some? then Sending(claim, payload.value)
                                                    else Failing(claim, a.error)))
      ensures payload.Some? <==> Prepared(archive, m, a)
      ensures payload.Some? ==> payload.value == if m.key.None? then m.payload else archive[m.key.value]
    {
      hide After, With;
      PrepareRun(c, Over(rest), start, before, pid, url, mid, m, claim, a.prepared, a.error);
      run := before + [Prepare(pid, a.prepared, a.error)];
      if !a.prepared || (m.key.Some? && m.key.value !in archive) {
        return None, run;
      }
      payload := Some(if m.key.None? then m.payload else archive[m.key.value]);
    }

    /** From upsertInFlight to the recorded outcome. */
    method Attempt(ghost pid: Pid, mid: MessageId, url: string, m: Message, a: Answers,
                   ghost rest: State, ghost start: State, ghost before: seq<Action>)
      returns (result: Handled, ghost run: seq<Action>)
      requires Absent(rest, pid) && a.newId !in db.deliveries
      requires After(c, start, before) == With(Over(rest), pid, On(url, mid, m, Upserting))
      modifies this
      ensures After(c, start, run) ==
              if result.Won? then With(Over(rest), pid, On(url, mid, m, Acknowledging)) else Over(rest)
      ensures (result.Retried? || result.Died? || result.Won?) &&
              Recorded(c, old(db), db, archive, m, url, a.error, a.next, AttemptsAfter(old(db), result), result)
      ensures archive == if result.Died? then Archived(old(archive), m) else old(archive)
      ensures Leaves(old(live), live, mid, a, result)
      ensures result.Won? <==> Delivers(old(archive), m, a)
      ensures posts == old(posts) + Posted(old(archive), url, m, a)
    {
      hide After, With, ClaimOf, Recorded, Leaves, Matches, Prepared, Over, On, Absent, OnlyOf, Archived;
      ghost var was := db;
      var claim, payload;
      claim, run := BeginAttempt(pid, mid, url, m, a.newId, rest, start, before);
      payload, run := LoadPayload(pid, mid, url, m, claim, a, rest, start, run);
      if payload.None? {
        result, run := FailAttempt(pid, mid, url, m, claim, a, was, rest, start, run);
      } else {
        result, run := Deliver(pid, mid, url, m, claim, payload.value, a, was, rest, start, run);
      }
    }

    /** The webhook and what follows from its answer. */
    method Deliver(ghost pid: Pid, mid: MessageId, url: string, m: Message, claim: Claim, payload: Payload, a: Answers,
                   ghost was: Database, ghost rest: State, ghost start: State, ghost before: seq<Action>)
      returns (result: Handled, ghost run: seq<Action>)
      requires Absent(rest, pid) && claim.delivery in db.deliveries && claim == ClaimOf(db, claim.delivery)
      requires Matches(db.deliveries[claim.delivery], m.event, url)
      requires OnlyOf(claim.delivery, was, db) && db.deadLetters == was.deadLetters
      requires After(c, start, before) == With(Over(rest), pid, On(url, mid, m, Sending(claim, payload)))
      modifies this
      ensures After(c, start, run) ==
              if result.Won? then With(Over(rest), pid, On(url, mid, m, Acknowledging)) else Over(rest)
      ensures (result.Retried? || result.Died? || result.Won?) && result.delivery == claim.delivery
      ensures Recorded(c, was, db, archive, m, url, a.error, a.next, claim.attempts, result)
      ensures archive == if result.Died? then Archived(old(archive), m) else old(archive)
      ensures Leaves(old(live), live, mid, a, result)
      ensures result.Won? <==> a.answered && a.seen
      ensures posts == old(posts) + [Post(url, m.event, m.tenant, m.kind, payload, a.answered)]
    {
      hide After, With, Recorded, Store.MarkSucceeded, Matches, OnlyOf, Archived;
      CallRun(c, Over(rest), start, before, pid, url, mid, m, claim, payload, a.answered, a.seen, a.error);
      run := before + [Call(pid, a.answered, a.seen, a.error)];
      posts := posts + [Post(url, m.event, m.tenant, m.kind, payload, a.answered)];
      if !(a.answered && a.seen) {
        result, run := FailAttempt(pid, mid, url, m, claim, a, was, rest, start, run);
        return;
      }
      SucceedRun(c, Over(rest), start, run, pid, url, mid, m, claim);
      run := run + [Succeed(pid)];
      WonRecorded(c, was, db, archive, m, url, a.error, a.next, claim);
      MarkSucceeded(claim.delivery);
      result := Won(claim.delivery);
    }

    /** Up to the lookup: either the handling is over, or the attempt begins. */
    method Intake(ghost pid: Pid, mid: MessageId, url: string, body: Body, a: Answers, ghost rest: State)
      returns (over: Option<Handled>, ghost existing: Option<DeliveryId>, ghost run: seq<Action>)
      requires Absent(rest, pid) && mid in rest.bodies && rest.bodies[mid] == body
      modifies this`live
      ensures over.Some? ==>
                && (over.value.Hid? || over.value.Removed?)
                && After(c, old(Over(rest)), run) == Over(rest)
                && Decided(db, archive, url, body, a, over.value) && Leaves(old(live), live, mid, a, over.value)
      ensures over.None? ==>
                && live == old(live) && body.Parsed? && !Refused(body, a)
                && IsFirst(db, body.message.event, url, existing)
                && (existing.Some? ==> existing.value in db.deliveries && Begins(db.deliveries[existing.value], a.now))
                && After(c, old(Over(rest)), run) == With(Over(rest), pid, On(url, mid, body.message, Upserting))
    {
      hide After, With, IsFirst;
      ghost var start := Over(rest);
      existing := None;
      run := Received(pid, mid, url, body, a.circuitAllows && (body.Poison? || a.tokenGranted), rest);
      if !a.circuitAllows {
        run := HideUntil(pid, mid, url, body, rest, start, run);
        return Some(Hid), existing, run;
      }
      if body.Poison? {
        run := Acknowledge(pid, mid, url, body, a.deleted, rest, start, run);
        return Some(Removed(a.deleted)), existing, run;
      }
      if !a.tokenGranted {
        run := HideUntil(pid, mid, url, body, rest, start, run);
        return Some(Hid), existing, run;
      }
      over, existing, run := LookUp(pid, mid, url, body.message, a, rest, start, run);
    }

    method LookUp(ghost pid: Pid, mid: MessageId, url: string, m: Message, a: Answers,
                  ghost rest: State, ghost start: State, ghost before: seq<Action>)
      returns (over: Option<Handled>, existing: Option<DeliveryId>, ghost run: seq<Action>)
      requires Absent(rest, pid) && After(c, start, before) == With(Over(rest), pid, On(url, mid, m, Admitted))
      modifies this`live
      ensures IsFirst(db, m.event, url, existing) && (existing.Some? ==> existing.value in db.deliveries)
      ensures over.Some? ==>
                && (over.value.Hid? || over.value.Removed?)
                && After(c, start, run) == Over(rest)
                && Follows(db, archive, existing, m, a, over.value) && Leaves(old(live), live, mid, a, over.value)
      ensures over.None? ==>
                && live == old(live) && (existing.Some? ==> Begins(db.deliveries[existing.value], a.now))
                && After(c, start, run) == With(Over(rest), pid, On(url, mid, m, Upserting))
    {
      hide After, With, IsFirst, Follows;
      existing := FindByEventAndUrl(m.event, url);
      LookupFollows(db, archive, existing, m, a);
      LookupRun(c, Over(rest), start, before, pid, url, mid, m, existing, a.now);
      run := before + [Lookup(pid, existing, a.now)];
      if existing.Some? {
        var row := db.deliveries[existing.value];
        if row.status == DEAD_LETTERED || row.status == SUCCEEDED {
          run := Acknowledge(pid, mid, url, Parsed(m), a.deleted, rest, start, run);
          return Some(Removed(a.deleted)), existing, run;
        }
        if row.nextAttemptAt.Some? && row.nextAttemptAt.value > a.now {
          run := HideUntil(pid, mid, url, Parsed(m), rest, start, run);
          return Some(Hid), existing, run;
        }
      }
      over := None;
    }

    /** handleMessage. Without an interruption it is a run of the pipeline's machine. */
    method HandleMessage(ghost pid: Pid, mid: MessageId, url: string, body: Body, a: Answers, ghost rest: State)
      returns (result: Handled, ghost run: seq<Action>)
      requires Absent(rest, pid) && mid in rest.bodies && rest.bodies[mid] == body && a.newId !in db.deliveries
      modifies this
      ensures After(c, old(Over(rest)), run) ==
              if result.Won? then With(Over(rest), pid, Worker(url, mid, body, Acknowledging)) else Over(rest)
      ensures Decided(old(db), old(archive), url, body, a, result)
      ensures result.Hid? || result.Removed? ==> db == old(db) && archive == old(archive) && posts == old(posts)
      ensures Leaves(old(live), live, mid, a, result)
      ensures result.Retried? || result.Died? || result.Won? ==>
                (body.Parsed? && posts == old(posts) + Posted(old(archive), url, body.message, a) &&
                 Recorded(c, old(db), db, archive, body.message, url, a.error, a.next, AttemptsAfter(old(db), result),
                          result) &&
                 archive == if result.Died? && body.message.key.None?
                            then old(archive)[DeadLetterKey(body.message.event) := body.message.payload]
                            else old(archive))
    {
      hide After, With, Recorded, IsFirst, Posted, Delivers, Leaves, Begins, Follows, LookupPhase, Decided, Archived,
           AttemptsAfter, Over;
      var over;
      ghost var existing;
      ghost var was := db;
      ghost var held := archive;
      over, existing, run := Intake(pid, mid, url, body, a, rest);
      if over.Some? {
        return over.value, run;
      }
      result, run := Attempt(pid, mid, url, body.message, a, rest, old(Over(rest)), run);
      AttemptDecided(was, held, url, existing, body, a, result);
      ArchivedIs(held, body.message);
    }

    ghost method Received(pid: Pid, mid: MessageId, url: string, body: Body, allowed: bool, rest: State)
      returns (run: seq<Action>)
      requires Absent(rest, pid) && mid in rest.bodies && rest.bodies[mid] == body
      ensures After(c, Over(rest), run) == With(Over(rest), pid, Worker(url, mid, body, AdmitPhase(body, allowed)))
    {
      ReceivedAt(c, Over(rest), pid, mid, url, allowed);
      run := [Receive(pid, mid, url)] + [Admit(pid, allowed)];
    }
  }

  /** One more than before, or the first. */
  function AttemptsAfter(db: Database, h: Handled): nat
    requires h.Retried? || h.Died? || h.Won?
  {
    if h.delivery in db.deliveries then db.deliveries[h.delivery].attempts + 1 else 1
  }

  lemma ReceivedAt(c: Config, s: State, pid: Pid, mid: MessageId, url: string, allowed: bool)
    requires Absent(s, pid) && mid in s.bodies
    ensures After(c, s, [Receive(pid, mid, url)] + [Admit(pid, allowed)]) ==
            With(s, pid, Worker(url, mid, s.bodies[mid], AdmitPhase(s.bodies[mid], allowed)))
  {
    hide *;
    AfterNone(c, s);
    assert [] + [Receive(pid, mid, url)] == [Receive(pid, mid, url)];
    AfterOne(c, s, [], Receive(pid, mid, url));
    NextIs(c, s, Receive(pid, mid, url));
    ReceiveAt(s, pid, mid, url);
    AfterOne(c, s, [Receive(pid, mid, url)], Admit(pid, allowed));
    NextIs(c, After(c, s, [Receive(pid, mid, url)]), Admit(pid, allowed));
    AdmitAt(s, pid, url, mid, s.bodies[mid], allowed);
  }
}
