/** packages/api/src/services/replays.ts and repositories/replays.ts: replaying a dead letter. Any number
    of requests run interleaved with each other and with the rest of the system; every await is a step,
    and the reads of the transaction see what is committed when they run. */
module Replays {
  import opened Store

  type Pid = nat

  /** `originalEvent` is the event of the source dead letter. */
  datatype Answer = Answer(input: ReplayInput, replay: ReplayId, event: EventId)

  datatype Failure = Conflict | NotFound | Gone

  datatype Phase =
    | Starting
    | Unrepeated                          // findReplayByKey found nothing
    | Eligible(key: ArchiveKey)           // the source can be replayed
    | Archived(key: ArchiveKey)           // its archive was readable
    | TxUnrepeated(key: ArchiveKey)       // in the transaction: no replay by this key
    | TxChecked(source: Source)           // in the transaction: the source is unchanged
    | Violated                            // the inserts met a unique index and were rolled back
    | Answered(answer: Answer)
    | Failed(failure: Failure)

  datatype Request = Request(input: ReplayInput, url: string, phase: Phase)

  datatype Service = Service(db: Database, archive: set<ArchiveKey>, requests: map<Pid, Request>, answers: seq<Answer>)

  datatype Action =
    | Begin(pid: Pid, input: ReplayInput, url: string)
    | FindKey(pid: Pid, found: Option<ReplayId>)
    | FindSourceRow(pid: Pid)
    | ReadArchive(pid: Pid)
    | TxFindKey(pid: Pid, found: Option<ReplayId>)
    | TxFindSource(pid: Pid)
    | TxInsert(pid: Pid, newEvent: EventId, newOutbox: OutboxId, newReplay: ReplayId)
    | Recover(pid: Pid, found: Option<ReplayId>)
    | Elsewhere(db: Database, archive: set<ArchiveKey>)

  // ---- the steps ----

  /** `response`: a key that was used for another dead letter is a conflict. */
  function Respond(db: Database, input: ReplayInput, r: ReplayId): Phase
    requires r in db.replays
  {
    if db.replays[r].source != input.source then Failed(Conflict)
    else Answered(Answer(input, r, db.replays[r].event))
  }

  /** The checks of requestReplay on the source, before the transaction. */
  function CheckSource(found: Option<Source>, url: string): Phase {
    if found.None? then Failed(NotFound)
    else if found.value.status != DEAD_LETTERED then Failed(Conflict)
    else if found.value.replayed then Failed(Conflict)
    else if found.value.url != url then Failed(Conflict)
    else Eligible(found.value.key)
  }

  /** The checks of createReplay inside the transaction. */
  function CheckAgain(found: Option<Source>, url: string, key: ArchiveKey): Phase {
    if found.None? then Failed(NotFound)
    else if found.value.status != DEAD_LETTERED || found.value.url != url || found.value.key != key
         then Failed(Conflict)
    else TxChecked(found.value)
  }

  function Move(s: Service, pid: Pid, phase: Phase): Service
    requires pid in s.requests
  {
    s.(requests := s.requests[pid := s.requests[pid].(phase := phase)],
       answers := if phase.Answered? then s.answers + [phase.answer] else s.answers)
  }

  predicate At(s: Service, pid: Pid, phase: Phase -> bool) {
    pid in s.requests && phase(s.requests[pid].phase)
  }

  function Step(s: Service, a: Action): Service {
    match a
    case Begin(pid, input, url) =>
      if pid in s.requests then s else s.(requests := s.requests[pid := Request(input, url, Starting)])
    case FindKey(pid, found) =>
      if At(s, pid, (p: Phase) => p.Starting?) &&
         FoundByKey(s.db, s.requests[pid].input.tenant, s.requests[pid].input.idempotencyKey, found)
      then Move(s, pid, if found.Some? then Respond(s.db, s.requests[pid].input, found.value) else Unrepeated)
      else s
    case FindSourceRow(pid) =>
      if At(s, pid, (p: Phase) => p.Unrepeated?)
      then Move(s, pid, CheckSource(FindSource(s.db, s.requests[pid].input.tenant, s.requests[pid].input.source),
                                    s.requests[pid].url))
      else s
    case ReadArchive(pid) =>
      if At(s, pid, (p: Phase) => p.Eligible?)
      then Move(s, pid, if s.requests[pid].phase.key in s.archive then Archived(s.requests[pid].phase.key)
                else Failed(Gone))
      else s
    case TxFindKey(pid, found) =>
      if At(s, pid, (p: Phase) => p.Archived?) &&
         FoundByKey(s.db, s.requests[pid].input.tenant, s.requests[pid].input.idempotencyKey, found)
      then Move(s, pid, if found.Some? then Respond(s.db, s.requests[pid].input, found.value)
                        else TxUnrepeated(s.requests[pid].phase.key))
      else s
    case TxFindSource(pid) =>
      if At(s, pid, (p: Phase) => p.TxUnrepeated?)
      then Move(s, pid, CheckAgain(FindSource(s.db, s.requests[pid].input.tenant, s.requests[pid].input.source),
                                   s.requests[pid].url, s.requests[pid].phase.key))
      else s
    case TxInsert(pid, e, o, r) =>
      if At(s, pid, (p: Phase) => p.TxChecked?) && e !in s.db.events && o !in s.db.outbox && r !in s.db.replays then
        var request := s.requests[pid];
        if UniqueViolation(s.db, request.input) then Move(s, pid, Violated)
        else Move(s.(db := InsertReplay(s.db, request.input, request.phase.source, e, o, r)), pid,
                  Answered(Answer(request.input, r, e)))
      else s
    case Recover(pid, found) =>
      if At(s, pid, (p: Phase) => p.Violated?) &&
         FoundByKey(s.db, s.requests[pid].input.tenant, s.requests[pid].input.idempotencyKey, found)
      then Move(s, pid, if found.Some? then Respond(s.db, s.requests[pid].input, found.value) else Failed(Conflict))
      else s
    case Elsewhere(db, archive) =>
      if Tolerated(s.db, db) then s.(db := db, archive := archive) else s
  }

  /** What the API, the publisher and the workers may do meanwhile: anything to deliveries and dead
      letters, new events each with one outbox row, and publishing; replays come only from here. */
  predicate Tolerated(s: Database, t: Database) {
    && t.replays == s.replays
    && (forall e | e in s.events :: e in t.events && t.events[e] == s.events[e])
    && (forall o | o in s.outbox :: o in t.outbox && t.outbox[o].event == s.outbox[o].event)
    && (forall o | o in t.outbox && o !in s.outbox :: t.outbox[o].event !in s.events)
    && (forall o | o in t.outbox :: t.outbox[o].event in t.events)
  }

  function After(s: Service, actions: seq<Action>): Service {
    if actions == [] then s else Step(After(s, actions[..|actions| - 1]), actions[|actions| - 1])
  }

  function Run(db: Database, actions: seq<Action>): Service {
    After(Service(db, {}, map[], []), actions)
  }

  lemma AfterOne(s: Service, actions: seq<Action>, a: Action)
    ensures After(s, actions + [a]) == Step(After(s, actions), a)
  {
    assert (actions + [a])[..|actions|] == actions;
  }

  lemma {:induction false} AfterPlus(s: Service, a: seq<Action>, b: seq<Action>)
    ensures After(s, a + b) == After(After(s, a), b)
    decreases |b|
  {
    hide Step;
    if b == [] {
      assert a + b == a;
    } else {
      AfterPlus(s, a, b[..|b| - 1]);
      assert (a + b)[..|a + b| - 1] == a + b[..|b| - 1];
    }
  }

  // ---- what holds in every state ----

  predicate OneOutboxRow(db: Database, e: EventId) {
    exists o :: o in db.outbox && db.outbox[o].event == e &&
                (forall p | p in db.outbox && db.outbox[p].event == e :: p == o)
  }

  ghost predicate ReplayOk(db: Database, r: ReplayId)
    requires r in db.replays
  {
    var row := db.replays[r];
    && row.event in db.events && db.events[row.event].payload.JsonNull? && db.events[row.event].key.Some?
    && db.events[row.event].tenant == row.tenant
    && OneOutboxRow(db, row.event)
    && (forall q | q in db.replays && q != r ::
          && db.replays[q].source != row.source
          && db.replays[q].event != row.event
          && !(db.replays[q].tenant == row.tenant && db.replays[q].idempotencyKey == row.idempotencyKey))
  }

  ghost predicate AnswerOk(db: Database, a: Answer) {
    && a.replay in db.replays
    && db.replays[a.replay] == ReplayRow(a.input.tenant, a.input.source, a.event, a.input.idempotencyKey)
  }

  ghost predicate ServiceOk(s: Service) {
    && (forall r | r in s.db.replays :: ReplayOk(s.db, r))
    && (forall o | o in s.db.outbox :: s.db.outbox[o].event in s.db.events)
    && (forall a | a in s.answers :: AnswerOk(s.db, a))
    && (forall pid | pid in s.requests && s.requests[pid].phase.TxChecked? ::
          s.requests[pid].phase.source.tenant == s.requests[pid].input.tenant)
  }

  lemma MoveOk(s: Service, pid: Pid, phase: Phase)
    requires ServiceOk(s) && pid in s.requests
    requires phase.Answered? ==> AnswerOk(s.db, phase.answer)
    requires phase.TxChecked? ==> phase.source.tenant == s.requests[pid].input.tenant
    ensures ServiceOk(Move(s, pid, phase))
  {
  }

  lemma RespondOk(s: Service, pid: Pid, r: ReplayId)
    requires ServiceOk(s) && pid in s.requests
    requires HasKey(s.db, r, s.requests[pid].input.tenant, s.requests[pid].input.idempotencyKey)
    ensures ServiceOk(Move(s, pid, Respond(s.db, s.requests[pid].input, r)))
  {
    MoveOk(s, pid, Respond(s.db, s.requests[pid].input, r));
  }

  /** The commit adds one event, its outbox row and the replay, and changes no other row. */
  lemma InsertAdds(db: Database, input: ReplayInput, source: Source, e: EventId, o: OutboxId, r: ReplayId)
    requires e !in db.events && o !in db.outbox && r !in db.replays
    ensures var t := InsertReplay(db, input, source, e, o, r);
            && t.deliveries == db.deliveries && t.deadLetters == db.deadLetters
            && t.events - {e} == db.events && t.outbox - {o} == db.outbox && t.replays - {r} == db.replays
            && t.events[e] == EventRow(source.tenant, source.kind, JsonNull, Some(source.key))
            && t.outbox[o] == OutboxRow(e, false)
            && t.replays[r] == ReplayRow(input.tenant, input.source, e, input.idempotencyKey)
  {
  }

  /** The foreign keys of the dead letters. */
  predicate Referenced(db: Database) {
    forall d | d in db.deadLetters :: db.deadLetters[d].event in db.events && d in db.deliveries
  }

  /** What a caller sees after the commit: the key finds exactly this replay and every other key what it
      found before; the source is unchanged but replayed, every other source as before; and just the same
      dead letter and the same key are refused from now on. */
  lemma CommittedReplayIsSeen(db: Database, input: ReplayInput, source: Source, e: EventId, o: OutboxId, r: ReplayId)
    requires Referenced(db) && e !in db.events && o !in db.outbox && r !in db.replays && !UniqueViolation(db, input)
    requires FindSource(db, input.tenant, input.source) == Some(source)
    ensures var t := InsertReplay(db, input, source, e, o, r);
            && (forall found :: FoundByKey(t, input.tenant, input.idempotencyKey, found) <==> found == Some(r))
            && (forall tenant, k, found | !(tenant == input.tenant && k == input.idempotencyKey) ::
                  FoundByKey(t, tenant, k, found) <==> FoundByKey(db, tenant, k, found))
            && FindSource(t, input.tenant, input.source) == Some(source.(replayed := true))
            && (forall tenant, d | d != input.source :: FindSource(t, tenant, d) == FindSource(db, tenant, d))
            && (forall other :: UniqueViolation(t, other) <==>
                  || UniqueViolation(db, other) || other.source == input.source
                  || (other.tenant == input.tenant && other.idempotencyKey == input.idempotencyKey))
  {
    var t := InsertReplay(db, input, source, e, o, r);
    InsertAdds(db, input, source, e, o, r);
    hide InsertReplay;
    forall tenant, k, x ensures HasKey(t, x, tenant, k) <==>
        HasKey(db, x, tenant, k) || (x == r && tenant == input.tenant && k == input.idempotencyKey) {
      assert x in t.replays <==> x in db.replays || x == r;
      assert x in db.replays ==> t.replays[x] == db.replays[x];
    }
    forall d ensures Replayed(t, d) <==> Replayed(db, d) || d == input.source {
      if Replayed(db, d) {
        var x :| x in db.replays && db.replays[x].source == d;
        assert t.replays[x].source == d;
      }
      assert t.replays[r].source == input.source;
    }
    forall other ensures UniqueViolation(t, other) <==>
        || UniqueViolation(db, other) || other.source == input.source
        || (other.tenant == input.tenant && other.idempotencyKey == input.idempotencyKey) {
      ViolationIs(t, other);
      ViolationIs(db, other);
    }
    hide Replayed, UniqueViolation;
  }

  lemma ViolationIs(db: Database, input: ReplayInput)
    ensures UniqueViolation(db, input) <==>
            Replayed(db, input.source) || !FoundByKey(db, input.tenant, input.idempotencyKey, None)
  {
  }

  lemma OutboxRowKept(db: Database, t: Database, e: EventId)
    requires OneOutboxRow(db, e)
    requires forall o | o in db.outbox :: o in t.outbox && t.outbox[o].event == db.outbox[o].event
    requires forall o | o in t.outbox && o !in db.outbox :: t.outbox[o].event != e
    ensures OneOutboxRow(t, e)
  {
    var p :| p in db.outbox && db.outbox[p].event == e &&
             (forall x | x in db.outbox && db.outbox[x].event == e :: x == p);
    assert t.outbox[p].event == e;
  }

  lemma KeptReplayOk(db: Database, input: ReplayInput, source: Source, e: EventId, o: OutboxId, r: ReplayId,
                     q: ReplayId)
    requires q in db.replays && ReplayOk(db, q)
    requires e !in db.events && o !in db.outbox && r !in db.replays && !UniqueViolation(db, input)
    ensures ReplayOk(InsertReplay(db, input, source, e, o, r), q)
  {
    var t := InsertReplay(db, input, source, e, o, r);
    OutboxRowKept(db, t, db.replays[q].event);
    assert db.replays[q].source != input.source && !HasKey(db, q, input.tenant, input.idempotencyKey);
  }

  lemma NewOutboxRow(db: Database, input: ReplayInput, source: Source, e: EventId, o: OutboxId, r: ReplayId)
    requires forall x | x in db.outbox :: db.outbox[x].event in db.events
    requires e !in db.events && o !in db.outbox && r !in db.replays
    ensures OneOutboxRow(InsertReplay(db, input, source, e, o, r), e)
  {
    var t := InsertReplay(db, input, source, e, o, r);
    assert t.outbox[o].event == e;
    assert forall p | p in t.outbox && p != o :: t.outbox[p] == db.outbox[p];
  }

  lemma OtherReplayDiffers(db: Database, input: ReplayInput, q: ReplayId, e: EventId)
    requires q in db.replays && ReplayOk(db, q)
    requires e !in db.events && !UniqueViolation(db, input)
    ensures db.replays[q].source != input.source && !HasKey(db, q, input.tenant, input.idempotencyKey)
    ensures db.replays[q].event != e
  {
    hide OneOutboxRow;
  }

  lemma NewReplayOk(db: Database, input: ReplayInput, source: Source, e: EventId, o: OutboxId, r: ReplayId)
    requires forall q | q in db.replays :: ReplayOk(db, q)
    requires forall x | x in db.outbox :: db.outbox[x].event in db.events
    requires source.tenant == input.tenant
    requires e !in db.events && o !in db.outbox && r !in db.replays && !UniqueViolation(db, input)
    ensures ReplayOk(InsertReplay(db, input, source, e, o, r), r)
  {
    forall q | q in db.replays
      ensures db.replays[q].source != input.source && !HasKey(db, q, input.tenant, input.idempotencyKey)
      ensures db.replays[q].event != e
    {
      OtherReplayDiffers(db, input, q, e);
    }
    NewOutboxRow(db, input, source, e, o, r);
    hide OneOutboxRow, UniqueViolation;
  }

  lemma InsertOk(s: Service, pid: Pid, e: EventId, o: OutboxId, r: ReplayId)
    requires ServiceOk(s) && pid in s.requests && s.requests[pid].phase.TxChecked?
    requires e !in s.db.events && o !in s.db.outbox && r !in s.db.replays
    requires !UniqueViolation(s.db, s.requests[pid].input)
    ensures ServiceOk(Step(s, TxInsert(pid, e, o, r)))
  {
    hide ReplayOk, UniqueViolation;
    var t := Step(s, TxInsert(pid, e, o, r));
    var input, source := s.requests[pid].input, s.requests[pid].phase.source;
    NewReplayOk(s.db, input, source, e, o, r);
    forall q | q in t.db.replays && q != r ensures ReplayOk(t.db, q) {
      KeptReplayOk(s.db, input, source, e, o, r, q);
    }
  }

  lemma ToleratedReplayOk(db: Database, t: Database, r: ReplayId)
    requires r in db.replays && ReplayOk(db, r) && Tolerated(db, t)
    ensures ReplayOk(t, r)
  {
    OutboxRowKept(db, t, db.replays[r].event);
    hide OneOutboxRow;
  }

  lemma ElsewhereOk(s: Service, db: Database, archive: set<ArchiveKey>)
    requires ServiceOk(s)
    ensures ServiceOk(Step(s, Elsewhere(db, archive)))
  {
    hide ReplayOk;
    if Tolerated(s.db, db) {
      forall r | r in db.replays ensures ReplayOk(db, r) {
        ToleratedReplayOk(s.db, db, r);
      }
    }
  }

  lemma StepOk(s: Service, a: Action)
    requires ServiceOk(s)
    ensures ServiceOk(Step(s, a))
  {
    hide ServiceOk, Tolerated, UniqueViolation;
    if Step(s, a) != s {
      match a {
        case Begin(pid, input, url) => BeginOk(s, pid, input, url);
        case FindKey(pid, found) =>
          if found.Some? { RespondOk(s, pid, found.value); } else { MoveOk(s, pid, Unrepeated); }
        case FindSourceRow(pid) => MoveOk(s, pid, Step(s, a).requests[pid].phase);
        case ReadArchive(pid) => MoveOk(s, pid, Step(s, a).requests[pid].phase);
        case TxFindKey(pid, found) =>
          if found.Some? {
            RespondOk(s, pid, found.value);
          } else {
            MoveOk(s, pid, TxUnrepeated(s.requests[pid].phase.key));
          }
        case TxFindSource(pid) => MoveOk(s, pid, Step(s, a).requests[pid].phase);
        case TxInsert(pid, e, o, r) =>
          if UniqueViolation(s.db, s.requests[pid].input) {
            MoveOk(s, pid, Violated);
          } else {
            InsertOk(s, pid, e, o, r);
          }
        case Recover(pid, found) =>
          if found.Some? { RespondOk(s, pid, found.value); } else { MoveOk(s, pid, Failed(Conflict)); }
        case Elsewhere(db, archive) => ElsewhereOk(s, db, archive);
      }
    }
  }

  lemma BeginOk(s: Service, pid: Pid, input: ReplayInput, url: string)
    requires ServiceOk(s)
    ensures ServiceOk(Step(s, Begin(pid, input, url)))
  {
  }

  /** A database in which nothing was replayed yet. */
  predicate NothingReplayed(db: Database) {
    db.replays == map[] && forall o | o in db.outbox :: db.outbox[o].event in db.events
  }

  lemma {:induction false} AfterOk(s: Service, actions: seq<Action>)
    requires ServiceOk(s)
    ensures ServiceOk(After(s, actions))
  {
    hide ServiceOk, Step;
    if actions != [] {
      AfterOk(s, actions[..|actions| - 1]);
      StepOk(After(s, actions[..|actions| - 1]), actions[|actions| - 1]);
    }
  }

  lemma RunOk(db: Database, actions: seq<Action>)
    requires NothingReplayed(db)
    ensures ServiceOk(Run(db, actions))
  {
    AfterOk(Service(db, {}, map[], []), actions);
  }

  // ---- the guarantees ----

  /** At most one replay for a dead letter and for a tenant's key, each with its own event, which has
      exactly one outbox row and points to an archive. */
  lemma OneReplayEach(db: Database, actions: seq<Action>, r: ReplayId, q: ReplayId)
    requires NothingReplayed(db) && r in Run(db, actions).db.replays && q in Run(db, actions).db.replays
    ensures var t := Run(db, actions).db;
            && (t.replays[r].source == t.replays[q].source ==> r == q)
            && ((t.replays[r].tenant == t.replays[q].tenant &&
                 t.replays[r].idempotencyKey == t.replays[q].idempotencyKey) ==> r == q)
            && (t.replays[r].event == t.replays[q].event ==> r == q)
            && t.replays[r].event in t.events && t.events[t.replays[r].event].key.Some?
            && OneOutboxRow(t, t.replays[r].event)
  {
    RunOk(db, actions);
    assert ReplayOk(Run(db, actions).db, r);
  }

  /** All successful answers for one tenant's key name the same dead letter, replay and event. */
  lemma AnswersAgree(db: Database, actions: seq<Action>, a: Answer, b: Answer)
    requires NothingReplayed(db) && a in Run(db, actions).answers && b in Run(db, actions).answers
    requires a.input.tenant == b.input.tenant && a.input.idempotencyKey == b.input.idempotencyKey
    ensures a == b
  {
    RunOk(db, actions);
    OneReplayEach(db, actions, a.replay, b.replay);
  }

  /** The three looks for the key: before the transaction, in it, and after a unique violation. */
  predicate LooksForKey(s: Service, pid: Pid, a: Action) {
    pid in s.requests && match a
      case FindKey(p, _) => p == pid && s.requests[pid].phase.Starting?
      case TxFindKey(p, _) => p == pid && s.requests[pid].phase.Archived?
      case Recover(p, _) => p == pid && s.requests[pid].phase.Violated?
      case _ => false
  }

  /** Whichever look it is, a request whose key has a replay is answered with that replay and its event,
      or refused when the key was used for another dead letter; nothing is written. */
  lemma RepeatedKey(db: Database, actions: seq<Action>, pid: Pid, r: ReplayId, a: Action)
    requires NothingReplayed(db) && LooksForKey(Run(db, actions), pid, a)
    requires HasKey(Run(db, actions).db, r, Run(db, actions).requests[pid].input.tenant,
                    Run(db, actions).requests[pid].input.idempotencyKey)
    ensures var s := Run(db, actions); var t := Step(s, a);
            && t.db == s.db
            && (t != s && s.db.replays[r].source == s.requests[pid].input.source ==>
                  t.requests[pid].phase == Answered(Answer(s.requests[pid].input, r, s.db.replays[r].event)))
            && (t != s && s.db.replays[r].source != s.requests[pid].input.source ==>
                  t.requests[pid].phase == Failed(Conflict))
  {
    var s := Run(db, actions);
    if Step(s, a) != s && a.found.Some? {
      OneReplayEach(db, actions, r, a.found.value);
    }
    hide Run, NothingReplayed, OneOutboxRow, UniqueViolation;
  }

  // ---- what the checks of a request are ----

  /** The tenant has no dead letter of this name. */
  predicate NoSource(db: Database, tenant: TenantId, d: DeliveryId) {
    !(d in db.deadLetters && db.deadLetters[d].tenant == tenant && db.deadLetters[d].event in db.events &&
      d in db.deliveries)
  }

  /** requestReplay looks at the source: it is unknown, or its delivery is not dead-lettered, or it was replayed, or
      it went to another destination, or it can be replayed from its archive. */
  lemma FirstChecks(s: Service, pid: Pid)
    requires pid in s.requests && s.requests[pid].phase.Unrepeated?
    ensures var request := s.requests[pid]; var d := request.input.source;
            var phase := Step(s, FindSourceRow(pid)).requests[pid].phase;
            if NoSource(s.db, request.input.tenant, d) then phase == Failed(NotFound)
            else if s.db.deliveries[d].status != DEAD_LETTERED || s.db.deadLetters[d].url != request.url ||
                    (exists r :: r in s.db.replays && s.db.replays[r].source == d) then phase == Failed(Conflict)
            else phase == Eligible(s.db.deadLetters[d].key)
  {
  }

  /** The archive is read: the request goes on if and only if the payload is there. */
  lemma ArchiveCheck(s: Service, pid: Pid)
    requires pid in s.requests && s.requests[pid].phase.Eligible?
    ensures var key := s.requests[pid].phase.key; var phase := Step(s, ReadArchive(pid)).requests[pid].phase;
            && (phase == Archived(key) <==> key in s.archive)
            && (phase == Failed(Gone) <==> key !in s.archive)
  {
  }

  /** The transaction looks at the source again, and also refuses another archive than the one that was read. */
  lemma SecondChecks(s: Service, pid: Pid)
    requires pid in s.requests && s.requests[pid].phase.TxUnrepeated?
    ensures var request := s.requests[pid]; var d := request.input.source;
            var phase := Step(s, TxFindSource(pid)).requests[pid].phase;
            if NoSource(s.db, request.input.tenant, d) then phase == Failed(NotFound)
            else if s.db.deliveries[d].status != DEAD_LETTERED || s.db.deadLetters[d].url != request.url ||
                    s.db.deadLetters[d].key != request.phase.key then phase == Failed(Conflict)
            else
              && phase.TxChecked? && phase.source.tenant == request.input.tenant
              && phase.source.event == s.db.deadLetters[d].event && phase.source.key == request.phase.key
              && phase.source.kind == s.db.events[s.db.deadLetters[d].event].kind
  {
  }

  /** At step `n` of the run the request read its archive and found nothing. */
  predicate MissedAt(db: Database, actions: seq<Action>, pid: Pid, n: nat) {
    n < |actions| && actions[n] == ReadArchive(pid) &&
    var s := Run(db, actions[..n]);
    pid in s.requests && s.requests[pid].phase.Eligible? && s.requests[pid].phase.key !in s.archive
  }

  /** At step `n` of the run the request looked for its source and there was none. */
  predicate UnknownAt(db: Database, actions: seq<Action>, pid: Pid, n: nat) {
    n < |actions| &&
    var s := Run(db, actions[..n]);
    pid in s.requests && NoSource(s.db, s.requests[pid].input.tenant, s.requests[pid].input.source) &&
    ((actions[n] == FindSourceRow(pid) && s.requests[pid].phase.Unrepeated?) ||
     (actions[n] == TxFindSource(pid) && s.requests[pid].phase.TxUnrepeated?))
  }

  predicate Fails(s: Service, pid: Pid, failure: Failure) {
    pid in s.requests && s.requests[pid].phase == Failed(failure)
  }

  /** A step ends a request with Gone or NotFound at these checks only, and a failed request stays failed. */
  lemma FailsAtChecks(db: Database, actions: seq<Action>, pid: Pid)
    requires actions != []
    ensures var n := |actions| - 1; var s, t := Run(db, actions[..n]), Run(db, actions);
            && (Fails(t, pid, Gone) <==> Fails(s, pid, Gone) || MissedAt(db, actions, pid, n))
            && (Fails(t, pid, NotFound) <==> Fails(s, pid, NotFound) || UnknownAt(db, actions, pid, n))
  {
    var n := |actions| - 1;
    var s, a := Run(db, actions[..n]), actions[n];
    assert Run(db, actions) == Step(s, a);
    if !a.Elsewhere? && a.pid != pid && pid in s.requests {
      OthersStay(s, a, pid);
    }
    if pid in s.requests && s.requests[pid].phase.Unrepeated? { FirstChecks(s, pid); }
    if pid in s.requests && s.requests[pid].phase.TxUnrepeated? { SecondChecks(s, pid); }
    OtherSteps(s, a, pid);
    hide Run, Step, NoSource;
  }

  /** Every other step of a request. */
  lemma OtherSteps(s: Service, a: Action, pid: Pid)
    ensures var t := Step(s, a);
            && (pid !in s.requests && pid in t.requests ==> t.requests[pid].phase == Starting)
            && (pid in s.requests ==> pid in t.requests)
            && (a.Elsewhere? && pid in s.requests ==> t.requests[pid] == s.requests[pid])
            && (pid in s.requests && s.requests[pid].phase.Failed? ==> t.requests[pid] == s.requests[pid])
            && (pid in s.requests && !s.requests[pid].phase.Failed? && t.requests[pid].phase.Failed? &&
                (t.requests[pid].phase.failure.Gone? || t.requests[pid].phase.failure.NotFound?) ==>
                  || (a == FindSourceRow(pid) && s.requests[pid].phase.Unrepeated?)
                  || (a == ReadArchive(pid) && s.requests[pid].phase.Eligible?)
                  || (a == TxFindSource(pid) && s.requests[pid].phase.TxUnrepeated?))
  {
    hide FindSource, UniqueViolation, InsertReplay, FoundByKey, Tolerated;
  }

  ghost predicate Missed(db: Database, actions: seq<Action>, pid: Pid) {
    exists n: nat :: MissedAt(db, actions, pid, n)
  }

  ghost predicate Unknown(db: Database, actions: seq<Action>, pid: Pid) {
    exists n: nat :: UnknownAt(db, actions, pid, n)
  }

  lemma Earlier(db: Database, actions: seq<Action>, pid: Pid, n: nat, key: ArchiveKey)
    requires actions != [] && n < |actions| - 1
    ensures var before := actions[..|actions| - 1];
            && (MissedAt(db, before, pid, n) <==> MissedAt(db, actions, pid, n))
            && (UnknownAt(db, before, pid, n) <==> UnknownAt(db, actions, pid, n))
            && (ReadAt(db, before, pid, n, key) <==> ReadAt(db, actions, pid, n, key))
  {
    assert actions[..|actions| - 1][..n] == actions[..n];
    hide Run, NoSource;
  }

  lemma MissedToo(db: Database, actions: seq<Action>, pid: Pid)
    requires actions != []
    ensures var n := |actions| - 1;
            Missed(db, actions, pid) <==> Missed(db, actions[..n], pid) || MissedAt(db, actions, pid, n)
  {
    var before := actions[..|actions| - 1];
    forall n: nat | n < |actions| - 1
      ensures MissedAt(db, before, pid, n) <==> MissedAt(db, actions, pid, n)
    {
      hide *;
      Earlier(db, actions, pid, n, DeadLetterKey(0));
    }
    assert forall n: nat | MissedAt(db, actions, pid, n) :: n < |actions|;
    assert forall n: nat | MissedAt(db, before, pid, n) :: n < |actions| - 1;
    hide MissedAt;
  }

  lemma UnknownToo(db: Database, actions: seq<Action>, pid: Pid)
    requires actions != []
    ensures var n := |actions| - 1;
            Unknown(db, actions, pid) <==> Unknown(db, actions[..n], pid) || UnknownAt(db, actions, pid, n)
  {
    var before := actions[..|actions| - 1];
    forall n: nat | n < |actions| - 1
      ensures UnknownAt(db, before, pid, n) <==> UnknownAt(db, actions, pid, n)
    {
      hide *;
      Earlier(db, actions, pid, n, DeadLetterKey(0));
    }
    assert forall n: nat | UnknownAt(db, actions, pid, n) :: n < |actions|;
    assert forall n: nat | UnknownAt(db, before, pid, n) :: n < |actions| - 1;
    hide UnknownAt;
  }

  /** Over all runs: a request has ended with Gone if and only if it read its archive when the payload was not there,
      and with NotFound if and only if one of its two looks found no such dead letter of its tenant. */
  lemma {:induction false} FailsIff(db: Database, actions: seq<Action>, pid: Pid)
    ensures Fails(Run(db, actions), pid, Gone) <==> Missed(db, actions, pid)
    ensures Fails(Run(db, actions), pid, NotFound) <==> Unknown(db, actions, pid)
  {
    if actions == [] {
      assert !Fails(Run(db, actions), pid, Gone) && !Fails(Run(db, actions), pid, NotFound);
    } else {
      FailsIff(db, actions[..|actions| - 1], pid);
      FailsAtChecks(db, actions, pid);
      MissedToo(db, actions, pid);
      UnknownToo(db, actions, pid);
    }
    hide Run, Missed, Unknown, MissedAt, UnknownAt, Fails;
  }

  /** At step `n` of the run the request read its archive, and the payload was there. */
  predicate ReadAt(db: Database, actions: seq<Action>, pid: Pid, n: nat, key: ArchiveKey) {
    n < |actions| && actions[n] == ReadArchive(pid) &&
    var s := Run(db, actions[..n]);
    pid in s.requests && s.requests[pid].phase == Eligible(key) && key in s.archive
  }

  ghost predicate WasRead(db: Database, actions: seq<Action>, pid: Pid, key: ArchiveKey) {
    exists n: nat :: ReadAt(db, actions, pid, n, key)
  }

  /** The archive that a request in the transaction, or about to enter it, has found readable. */
  function Readable(phase: Phase): Option<ArchiveKey> {
    match phase
    case Archived(key) => Some(key)
    case TxUnrepeated(key) => Some(key)
    case TxChecked(source) => Some(source.key)
    case _ => None
  }

  lemma ReadEarlier(db: Database, actions: seq<Action>, pid: Pid, key: ArchiveKey)
    requires actions != [] && WasRead(db, actions[..|actions| - 1], pid, key)
    ensures WasRead(db, actions, pid, key)
  {
    var n: nat :| ReadAt(db, actions[..|actions| - 1], pid, n, key);
    Earlier(db, actions, pid, n, key);
  }

  /** How a step brings a request to a readable archive: by reading it, or from one. */
  lemma ReadableFrom(s: Service, a: Action, pid: Pid)
    requires pid in Step(s, a).requests && Readable(Step(s, a).requests[pid].phase).Some?
    ensures pid in s.requests
    ensures var key := Readable(Step(s, a).requests[pid].phase);
            || Readable(s.requests[pid].phase) == key
            || (a == ReadArchive(pid) && s.requests[pid].phase == Eligible(key.value) && key.value in s.archive)
  {
    if !a.Elsewhere? && a.pid != pid && pid in s.requests {
      OthersStay(s, a, pid);
    }
    if pid in s.requests && s.requests[pid].phase.TxUnrepeated? { SecondChecks(s, pid); }
    hide FindSource, UniqueViolation, InsertReplay, FoundByKey, Tolerated;
  }

  lemma {:induction false} ReadableWasRead(db: Database, actions: seq<Action>, pid: Pid)
    requires pid in Run(db, actions).requests && Readable(Run(db, actions).requests[pid].phase).Some?
    ensures WasRead(db, actions, pid, Readable(Run(db, actions).requests[pid].phase).value)
  {
    if actions != [] {
      var before, a := actions[..|actions| - 1], actions[|actions| - 1];
      var key := Readable(Run(db, actions).requests[pid].phase).value;
      assert Run(db, actions) == Step(Run(db, before), a);
      ReadableFrom(Run(db, before), a, pid);
      hide Run, Step, Readable;
      if Readable(Run(db, before).requests[pid].phase) == Some(key) {
        ReadableWasRead(db, before, pid);
        ReadEarlier(db, actions, pid, key);
      } else {
        assert ReadAt(db, actions, pid, |before|, key);
      }
    }
  }

  /** A replay stays with its event, or is committed for a source whose archive is named in its event. */
  lemma CommitStep(s: Service, a: Action, r: ReplayId)
    requires ServiceOk(s) && r in Step(s, a).db.replays
    ensures var t := Step(s, a); var e := t.db.replays[r].event;
            && e in t.db.events
            && (r in s.db.replays ==>
                  s.db.replays[r].event == e && e in s.db.events && t.db.events[e] == s.db.events[e])
            && (r !in s.db.replays ==>
                  a.TxInsert? && a.pid in s.requests && s.requests[a.pid].phase.TxChecked? &&
                  t.db.events[e].key == Some(s.requests[a.pid].phase.source.key))
  {
    if r in s.db.replays {
      assert ReplayOk(s.db, r);
    }
    hide FindSource, UniqueViolation, FoundByKey, OneOutboxRow, Respond, CheckSource, CheckAgain;
  }

  /** The archive of every committed replay's event was there when its request read it. */
  lemma {:induction false} CommittedWasReadable(db: Database, actions: seq<Action>, r: ReplayId)
    requires NothingReplayed(db) && r in Run(db, actions).db.replays
    ensures var t := Run(db, actions).db; var e := t.replays[r].event;
            e in t.events && t.events[e].key.Some? && exists pid :: WasRead(db, actions, pid, t.events[e].key.value)
  {
    if actions != [] {
      var before, a := actions[..|actions| - 1], actions[|actions| - 1];
      var s := Run(db, before);
      assert Run(db, actions) == Step(s, a);
      RunOk(db, before);
      CommitStep(s, a, r);
      hide Run, Step, ServiceOk, WasRead, NothingReplayed;
      if r in s.db.replays {
        CommittedWasReadable(db, before, r);
        var pid :| WasRead(db, before, pid, s.db.events[s.db.replays[r].event].key.value);
        ReadEarlier(db, actions, pid, s.db.events[s.db.replays[r].event].key.value);
      } else {
        ReadableWasRead(db, before, a.pid);
        ReadEarlier(db, actions, a.pid, s.requests[a.pid].phase.source.key);
      }
    }
  }

  // ---- when a repeated key is refused ----

  /** The source can be replayed to `url`, and its archive is readable. */
  predicate Ready(s: Service, input: ReplayInput, url: string, key: ArchiveKey) {
    var found := FindSource(s.db, input.tenant, input.source);
    && found.Some? && found.value.status == DEAD_LETTERED && found.value.url == url && found.value.key == key
    && key in s.archive
  }

  /** It stays so throughout. */
  ghost predicate Steady(s: Service, actions: seq<Action>, input: ReplayInput, url: string, key: ArchiveKey) {
    forall n | 0 <= n <= |actions| :: Ready(After(s, actions[..n]), input, url, key)
  }

  predicate PhaseIs(s: Service, pid: Pid, phase: Phase) {
    pid in s.requests && s.requests[pid].phase == phase
  }

  /** Replay `r` is the one of the request's key and of its dead letter. */
  predicate IsReplayOf(s: Service, r: ReplayId, input: ReplayInput) {
    HasKey(s.db, r, input.tenant, input.idempotencyKey) && s.db.replays[r].source == input.source
  }

  /** Every phase of a request that has not ended, except the one after the first look found nothing;
      an archive key it holds is the source's. */
  predicate OnTheWay(phase: Phase, key: ArchiveKey) {
    match phase
    case Starting => true
    case Eligible(k) => k == key
    case Archived(k) => k == key
    case TxUnrepeated(k) => k == key
    case TxChecked(_) => true
    case Violated => true
    case _ => false
  }

  /** The request is on its way to the answer that names `r`, or has it. */
  predicate Heading(s: Service, pid: Pid, request: Request, r: ReplayId, key: ArchiveKey) {
    && pid in s.requests && s.requests[pid].input == request.input && s.requests[pid].url == request.url
    && IsReplayOf(s, r, request.input)
    && (OnTheWay(s.requests[pid].phase, key) ||
        s.requests[pid].phase == Answered(Answer(request.input, r, s.db.replays[r].event)))
  }

  lemma FoundIsIt(s: Service, input: ReplayInput, r: ReplayId, found: Option<ReplayId>)
    requires ServiceOk(s) && IsReplayOf(s, r, input) && FoundByKey(s.db, input.tenant, input.idempotencyKey, found)
    ensures found == Some(r) && Respond(s.db, input, r) == Answered(Answer(input, r, s.db.replays[r].event))
  {
    assert ReplayOk(s.db, r);
    hide OneOutboxRow;
  }

  lemma ReplaysStay(s: Service, a: Action, r: ReplayId)
    requires r in s.db.replays
    ensures r in Step(s, a).db.replays && Step(s, a).db.replays[r] == s.db.replays[r]
  {
    hide UniqueViolation, FoundByKey, FindSource, Respond, CheckSource, CheckAgain;
  }

  lemma OthersStay(s: Service, a: Action, pid: Pid)
    requires pid in s.requests && !a.Elsewhere? && a.pid != pid
    ensures pid in Step(s, a).requests && Step(s, a).requests[pid] == s.requests[pid]
  {
    hide UniqueViolation, FoundByKey, FindSource, Respond, CheckSource, CheckAgain, InsertReplay;
  }

  lemma HeadingStep(s: Service, a: Action, pid: Pid, request: Request, r: ReplayId, key: ArchiveKey)
    requires ServiceOk(s) && Heading(s, pid, request, r, key) && Ready(s, request.input, request.url, key)
    ensures Heading(Step(s, a), pid, request, r, key)
  {
    ReplaysStay(s, a, r);
    if a.Elsewhere? {
      hide ServiceOk, FindSource, Tolerated;
    } else if a.pid != pid {
      OthersStay(s, a, pid);
      hide Step, ServiceOk, FindSource;
    } else {
      OwnStep(s, a, pid, request, r, key);
    }
  }

  lemma OwnStep(s: Service, a: Action, pid: Pid, request: Request, r: ReplayId, key: ArchiveKey)
    requires ServiceOk(s) && Heading(s, pid, request, r, key) && Ready(s, request.input, request.url, key)
    requires !a.Elsewhere? && a.pid == pid
    ensures Heading(Step(s, a), pid, request, r, key)
  {
    hide ServiceOk, ReplayOk, FindSource;
    if LooksForKey(s, pid, a) && FoundByKey(s.db, request.input.tenant, request.input.idempotencyKey, a.found) {
      FoundIsIt(s, request.input, r, a.found);
    }
    if a.TxInsert? {
      assert UniqueViolation(s.db, request.input);
    }
    hide FoundByKey, UniqueViolation, InsertReplay, Respond;
  }

  lemma {:induction false} HeadingLasts(s: Service, more: seq<Action>, pid: Pid, request: Request, r: ReplayId,
                                        key: ArchiveKey)
    requires ServiceOk(s) && Heading(s, pid, request, r, key) && Steady(s, more, request.input, request.url, key)
    ensures Heading(After(s, more), pid, request, r, key)
  {
    hide ServiceOk, Heading, Ready, Step;
    if more != [] {
      var n := |more| - 1;
      var before := more[..n];
      forall k | 0 <= k <= n ensures Ready(After(s, before[..k]), request.input, request.url, key) {
        assert before[..k] == more[..k];
      }
      HeadingLasts(s, before, pid, request, r, key);
      AfterOk(s, before);
      HeadingStep(After(s, before), more[n], pid, request, r, key);
    }
  }

  /** One step of the request itself that writes nothing brings it closer to its answer. */
  function Rank(phase: Phase): nat {
    match phase
    case Starting => 1
    case Eligible(_) => 2
    case Archived(_) => 1
    case TxUnrepeated(_) => 3
    case TxChecked(_) => 2
    case Violated => 1
    case _ => 0
  }

  lemma NextTowardsAnswer(s: Service, pid: Pid, request: Request, r: ReplayId, key: ArchiveKey) returns (a: Action)
    requires ServiceOk(s) && Heading(s, pid, request, r, key) && Ready(s, request.input, request.url, key)
    requires Rank(s.requests[pid].phase) > 0
    ensures var t := Step(s, a);
            && t.db == s.db && t.archive == s.archive && Heading(t, pid, request, r, key)
            && Rank(t.requests[pid].phase) < Rank(s.requests[pid].phase)
  {
    var phase := s.requests[pid].phase;
    var e := FreshId(s.db.events.Keys);
    var o := FreshId(s.db.outbox.Keys);
    var x := FreshId(s.db.replays.Keys);
    a := match phase
      case Starting => FindKey(pid, Some(r))
      case Eligible(_) => ReadArchive(pid)
      case Archived(_) => TxFindKey(pid, Some(r))
      case TxUnrepeated(_) => TxFindSource(pid)
      case TxChecked(_) => TxInsert(pid, e, o, x)
      case _ => Recover(pid, Some(r));
    HeadingStep(s, a, pid, request, r, key);
    assert UniqueViolation(s.db, request.input)
           && FoundByKey(s.db, request.input.tenant, request.input.idempotencyKey, Some(r));
    hide ServiceOk, FindSource, UniqueViolation, FoundByKey, HasKey, InsertReplay;
  }

  lemma {:induction false} ReachesAnswer(s: Service, pid: Pid, request: Request, r: ReplayId, key: ArchiveKey)
    returns (more: seq<Action>)
    requires ServiceOk(s) && Heading(s, pid, request, r, key) && Ready(s, request.input, request.url, key)
    ensures Steady(s, more, request.input, request.url, key)
    ensures PhaseIs(After(s, more), pid, Answered(Answer(request.input, r, s.db.replays[r].event)))
    decreases Rank(s.requests[pid].phase)
  {
    if Rank(s.requests[pid].phase) == 0 {
      more := [];
    } else {
      var a := NextTowardsAnswer(s, pid, request, r, key);
      StepOk(s, a);
      var t := Step(s, a);
      hide Step, ServiceOk, Heading;
      assert Ready(t, request.input, request.url, key);
      var rest := ReachesAnswer(t, pid, request, r, key);
      more := [a] + rest;
      AfterOne(s, [], a);
      assert [] + [a] == [a];
      AfterPlus(s, [a], rest);
      forall n | 0 <= n <= |more| ensures Ready(After(s, more[..n]), request.input, request.url, key) {
        if n == 0 {
          assert more[..n] == [];
        } else {
          assert more[..n] == [a] + rest[..n - 1];
          AfterPlus(s, [a], rest[..n - 1]);
        }
      }
    }
  }

  /** A request whose key has a replay of the same dead letter, while that source and its archive stay as
      they are, can end in a conflict if and only if its first look had found nothing and it has not yet
      read the source. In every other phase it cannot fail, and it can be answered with that replay. */
  lemma ConflictIffUnrepeated(db: Database, actions: seq<Action>, pid: Pid, r: ReplayId, key: ArchiveKey)
    requires NothingReplayed(db) && pid in Run(db, actions).requests
    requires var s := Run(db, actions); var request := s.requests[pid];
             && (request.phase.Unrepeated? || OnTheWay(request.phase, key))
             && IsReplayOf(s, r, request.input) && Ready(s, request.input, request.url, key)
    ensures var s := Run(db, actions); var request := s.requests[pid];
            && ((exists more :: Steady(s, more, request.input, request.url, key) &&
                                PhaseIs(After(s, more), pid, Failed(Conflict))) <==> request.phase.Unrepeated?)
            && (!request.phase.Unrepeated? ==>
                  && (forall more | Steady(s, more, request.input, request.url, key) ::
                        Heading(After(s, more), pid, request, r, key))
                  && (exists more :: Steady(s, more, request.input, request.url, key) &&
                        PhaseIs(After(s, more), pid, Answered(Answer(request.input, r, s.db.replays[r].event)))))
  {
    var s := Run(db, actions);
    var request := s.requests[pid];
    RunOk(db, actions);
    hide Run, ServiceOk, Step;
    if request.phase.Unrepeated? {
      RefusedNow(s, pid, key);
    } else {
      forall more | Steady(s, more, request.input, request.url, key)
        ensures Heading(After(s, more), pid, request, r, key) {
        HeadingLasts(s, more, pid, request, r, key);
      }
      var more := ReachesAnswer(s, pid, request, r, key);
    }
  }

  lemma RefusedNow(s: Service, pid: Pid, key: ArchiveKey)
    requires pid in s.requests && s.requests[pid].phase.Unrepeated? && Replayed(s.db, s.requests[pid].input.source)
    requires Ready(s, s.requests[pid].input, s.requests[pid].url, key)
    ensures var request := s.requests[pid]; var more := [FindSourceRow(pid)];
            Steady(s, more, request.input, request.url, key) && PhaseIs(After(s, more), pid, Failed(Conflict))
  {
    var more := [FindSourceRow(pid)];
    AfterOne(s, [], FindSourceRow(pid));
    assert [] + more == more && more[..0] == [] && more[..1] == more;
    hide FindSource;
  }

  // ---- the window is real ----

  /** Two requests with the same key and dead letter have looked for the key in vain. */
  function BothLooked(db: Database, input: ReplayInput, url: string, key: ArchiveKey): Service {
    Service(db, {key}, map[0 := Request(input, url, Unrepeated), 1 := Request(input, url, Unrepeated)], [])
  }

  lemma LookingInVain(db: Database, input: ReplayInput, url: string, key: ArchiveKey) returns (actions: seq<Action>)
    requires NothingReplayed(db)
    ensures Run(db, actions) == BothLooked(db, input, url, key)
  {
    var s0 := Service(db, {}, map[], []);
    actions := [Elsewhere(db, {key})] + [Begin(0, input, url)] + [FindKey(0, None)] + [Begin(1, input, url)]
               + [FindKey(1, None)];
    AfterOne(s0, [], Elsewhere(db, {key}));
    assert [] + [Elsewhere(db, {key})] == [Elsewhere(db, {key})];
    var s1 := s0.(archive := {key});
    assert Step(s0, Elsewhere(db, {key})) == s1;
    AfterOne(s0, [Elsewhere(db, {key})], Begin(0, input, url));
    AfterOne(s0, [Elsewhere(db, {key})] + [Begin(0, input, url)], FindKey(0, None));
    AfterOne(s0, [Elsewhere(db, {key})] + [Begin(0, input, url)] + [FindKey(0, None)], Begin(1, input, url));
    AfterOne(s0, [Elsewhere(db, {key})] + [Begin(0, input, url)] + [FindKey(0, None)] + [Begin(1, input, url)],
             FindKey(1, None));
    hide After;
    var s3 := s1.(requests := map[0 := Request(input, url, Unrepeated)]);
    assert Step(Step(s1, Begin(0, input, url)), FindKey(0, None)) == s3;
    assert Step(Step(s3, Begin(1, input, url)), FindKey(1, None)) == BothLooked(db, input, url, key);
  }

  /** One of them commits its replay. */
  lemma OneCommits(s: Service, input: ReplayInput, url: string, key: ArchiveKey, e: EventId, o: OutboxId, r: ReplayId)
    returns (actions: seq<Action>)
    requires s == BothLooked(s.db, input, url, key) && s.db.replays == map[]
    requires Ready(s, input, url, key) && e !in s.db.events && o !in s.db.outbox && r !in s.db.replays
    ensures var source := FindSource(s.db, input.tenant, input.source).value;
            After(s, actions) ==
            Service(InsertReplay(s.db, input, source, e, o, r), {key},
                    map[0 := Request(input, url, Unrepeated), 1 := Request(input, url, Answered(Answer(input, r, e)))],
                    [Answer(input, r, e)])
  {
    var source := FindSource(s.db, input.tenant, input.source).value;
    var a1 := [FindSourceRow(1)];
    var a2 := a1 + [ReadArchive(1)];
    var a3 := a2 + [TxFindKey(1, None)];
    var a4 := a3 + [TxFindSource(1)];
    actions := a4 + [TxInsert(1, e, o, r)];
    SecondLooks(s, input, url, source);
    SecondInserts(s, input, url, source, e, o, r);
    assert After(s, []) == s && [] + a1 == a1;
    AfterOne(s, [], FindSourceRow(1));
    AfterOne(s, a1, ReadArchive(1));
    AfterOne(s, a2, TxFindKey(1, None));
    AfterOne(s, a3, TxFindSource(1));
    AfterOne(s, a4, TxInsert(1, e, o, r));
    hide *;
  }

  lemma SecondLooks(s: Service, input: ReplayInput, url: string, source: Source)
    requires s == BothLooked(s.db, input, url, source.key) && s.db.replays == map[]
    requires FindSource(s.db, input.tenant, input.source) == Some(source) && Ready(s, input, url, source.key)
    ensures Step(s, FindSourceRow(1)) == Second(s, input, url, Eligible(source.key))
    ensures Step(Second(s, input, url, Eligible(source.key)), ReadArchive(1)) ==
            Second(s, input, url, Archived(source.key))
    ensures Step(Second(s, input, url, Archived(source.key)), TxFindKey(1, None)) ==
            Second(s, input, url, TxUnrepeated(source.key))
  {
    assert !source.replayed;
    hide FindSource;
  }

  lemma SecondInserts(s: Service, input: ReplayInput, url: string, source: Source, e: EventId, o: OutboxId, r: ReplayId)
    requires s == BothLooked(s.db, input, url, source.key) && s.db.replays == map[]
    requires FindSource(s.db, input.tenant, input.source) == Some(source) && Ready(s, input, url, source.key)
    requires e !in s.db.events && o !in s.db.outbox && r !in s.db.replays
    ensures Step(Second(s, input, url, TxUnrepeated(source.key)), TxFindSource(1)) ==
            Second(s, input, url, TxChecked(source))
    ensures Step(Second(s, input, url, TxChecked(source)), TxInsert(1, e, o, r)) ==
            Service(InsertReplay(s.db, input, source, e, o, r), {source.key},
                    map[0 := Request(input, url, Unrepeated), 1 := Request(input, url, Answered(Answer(input, r, e)))],
                    [Answer(input, r, e)])
  {
    hide FindSource, InsertReplay;
  }

  function Second(s: Service, input: ReplayInput, url: string, phase: Phase): Service {
    s.(requests := s.requests[1 := Request(input, url, phase)])
  }

  /** A repeated request whose first look came before the commit of the first one is refused, although its key
      has a replay of the very dead letter it asks for. */
  lemma LateRepeatConflicts(db: Database, input: ReplayInput, url: string, source: Source, e: EventId, o: OutboxId,
                            r: ReplayId)
    returns (actions: seq<Action>)
    requires NothingReplayed(db) && e !in db.events && o !in db.outbox
    requires FindSource(db, input.tenant, input.source) == Some(source) && source.status == DEAD_LETTERED
             && source.url == url
    ensures var s := Run(db, actions);
            && IsReplayOf(s, r, input)
            && 0 in s.requests && s.requests[0] == Request(input, url, Failed(Conflict))
            && 1 in s.requests && s.requests[1] == Request(input, url, Answered(Answer(input, r, e)))
  {
    var looked := LookingInVain(db, input, url, source.key);
    var s := BothLooked(db, input, url, source.key);
    var commit := OneCommits(s, input, url, source.key, e, o, r);
    var t := After(s, commit);
    AfterPlus(Service(db, {}, map[], []), looked, commit);
    actions := looked + commit + [FindSourceRow(0)];
    AfterOne(Service(db, {}, map[], []), looked + commit, FindSourceRow(0));
    assert t.db.replays[r].source == input.source && Replayed(t.db, input.source);
    hide After;
    LateLook(t, input, url);
  }

  lemma LateLook(t: Service, input: ReplayInput, url: string)
    requires 0 in t.requests && t.requests[0] == Request(input, url, Unrepeated) && Replayed(t.db, input.source)
    requires FindSource(t.db, input.tenant, input.source).Some?
    ensures Step(t, FindSourceRow(0)) == t.(requests := t.requests[0 := Request(input, url, Failed(Conflict))])
  {
  }

  // ---- the repository on its own ----

  datatype Result = Existing(replay: ReplayId) | Missing | Changed | UniqueFailure | Created(replay: ReplayId)

  class Primary {
    var db: Database

    constructor (db: Database)
      ensures this.db == db
    {
      this.db := db;
    }

    /** createReplay as one transaction that nothing interleaves with. */
    method CreateReplay(input: ReplayInput, key: ArchiveKey, url: string,
                        newEvent: EventId, newOutbox: OutboxId, newReplay: ReplayId) returns (result: Result)
      requires newEvent !in db.events && newOutbox !in db.outbox && newReplay !in db.replays
      modifies this
      ensures result.Created? ==>
                && !UniqueViolation(old(db), input) && result.replay == newReplay
                && CheckAgain(FindSource(old(db), input.tenant, input.source), url, key).TxChecked?
                && db == InsertReplay(old(db), input, FindSource(old(db), input.tenant, input.source).value,
                                      newEvent, newOutbox, newReplay)
      ensures !result.Created? ==> db == old(db)
      ensures result.Existing? ==> HasKey(db, result.replay, input.tenant, input.idempotencyKey)
      ensures result.Existing? <==> !FoundByKey(old(db), input.tenant, input.idempotencyKey, None)
      ensures var found := FindSource(old(db), input.tenant, input.source);
              FoundByKey(old(db), input.tenant, input.idempotencyKey, None) ==>
                && (result.Missing? <==> found.None?)
                && (result.Changed? <==> found.Some? && !CheckAgain(found, url, key).TxChecked?)
                && (result.UniqueFailure? <==>
                      CheckAgain(found, url, key).TxChecked? && Replayed(old(db), input.source))
    {
      if exists r :: r in db.replays && HasKey(db, r, input.tenant, input.idempotencyKey) {
        var r :| r in db.replays && HasKey(db, r, input.tenant, input.idempotencyKey);
        return Existing(r);
      }
      var source := FindSource(db, input.tenant, input.source);
      if source.None? {
        return Missing;
      }
      if source.value.status != DEAD_LETTERED || source.value.url != url || source.value.key != key {
        return Changed;
      }
      if UniqueViolation(db, input) {
        return UniqueFailure;
      }
      var events := db.events[newEvent := EventRow(source.value.tenant, source.value.kind, JsonNull,
                                                   Some(source.value.key))];
      var outbox := db.outbox[newOutbox := OutboxRow(newEvent, false)];
      var replays := db.replays[newReplay := ReplayRow(input.tenant, input.source, newEvent, input.idempotencyKey)];
      db := db.(events := events, outbox := outbox, replays := replays);
      result := Created(newReplay);
    }
  }
}
