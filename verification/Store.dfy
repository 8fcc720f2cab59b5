/** The rows kept on the PostgreSQL primary and the repository functions that read and
    write them. Identifiers are UUID text in the program and are only compared, so `nat`
    stands for them. A dead letter is named by its delivery, which is unique. */
module Store {

  datatype Option<+T> = None | Some(value: T)

  type EventId = nat
  type TenantId = nat
  type OutboxId = nat
  type DeliveryId = nat
  type ReplayId = nat

  /** An identifier that is not in use. */
  lemma FreshId(used: set<nat>) returns (id: nat)
    ensures id !in used && forall x | x in used :: x < id
  {
    if used == {} {
      id := 0;
    } else {
      var x :| x in used;
      var rest := FreshId(used - {x});
      id := if x < rest then rest else x + 1;
      assert forall y | y in used :: y == x || y in used - {x};
    }
  }

  /** A JSON payload. `JsonNull` is also what a database NULL reads back as. */
  datatype Payload = JsonNull | Json(text: string)

  /** `events/{tenant}/{event}.json` and `dead-letters/{event}.json`. */
  datatype ArchiveKey = EventKey(tenant: TenantId, event: EventId) | DeadLetterKey(event: EventId)

  datatype Status = PENDING | IN_FLIGHT | SUCCEEDED | FAILED | DEAD_LETTERED

  datatype EventRow = EventRow(tenant: TenantId, kind: string, payload: Payload, key: Option<ArchiveKey>)
  datatype OutboxRow = OutboxRow(event: EventId, published: bool)
  datatype DeliveryRow = DeliveryRow(event: EventId, tenant: TenantId, url: string, status: Status,
                                     attempts: nat, nextAttemptAt: Option<int>, lastError: Option<string>)
  datatype DeadLetterRow = DeadLetterRow(event: EventId, tenant: TenantId, url: string,
                                         lastError: Option<string>, attempts: nat, key: ArchiveKey)
  datatype ReplayRow = ReplayRow(tenant: TenantId, source: DeliveryId, event: EventId, idempotencyKey: nat)

  datatype Database = Database(
    events: map<EventId, EventRow>,
    outbox: map<OutboxId, OutboxRow>,
    deliveries: map<DeliveryId, DeliveryRow>,
    deadLetters: map<DeliveryId, DeadLetterRow>,
    replays: map<ReplayId, ReplayRow>)

  const Empty := Database(map[], map[], map[], map[], map[])

  function Clip(error: string): (r: string)
    ensures r <= error && |r| == if |error| <= 500 then |error| else 500
  {
    if |error| <= 500 then error else error[..500]
  }

  // ---- repositories/events.ts, one transaction of services/events.ts ----

  function CommitEvent(db: Database, id: EventId, outboxId: OutboxId, row: EventRow): Database {
    db.(events := db.events[id := row], outbox := db.outbox[outboxId := OutboxRow(id, false)])
  }

  // ---- repositories/outbox.ts ----

  /** `updateMany where { id, published: false }`: the second component is the count. */
  function MarkPublished(db: Database, id: OutboxId): (Database, nat) {
    if id in db.outbox && !db.outbox[id].published then
      (db.(outbox := db.outbox[id := db.outbox[id].(published := true)]), 1)
    else
      (db, 0)
  }

  // ---- repositories/deliveries.ts ----

  predicate Matches(row: DeliveryRow, event: EventId, url: string) {
    row.event == event && row.url == url
  }

  /** `found` is a possible answer of `findFirst`: some matching row, or none when there is none. */
  predicate IsFirst(db: Database, event: EventId, url: string, found: Option<DeliveryId>) {
    match found
    case None => forall d | d in db.deliveries :: !Matches(db.deliveries[d], event, url)
    case Some(d) => d in db.deliveries && Matches(db.deliveries[d], event, url)
  }

  function BeginAttempt(row: DeliveryRow): DeliveryRow {
    row.(status := IN_FLIGHT, attempts := row.attempts + 1, lastError := None, nextAttemptAt := None)
  }

  function FirstAttempt(event: EventId, tenant: TenantId, url: string): DeliveryRow {
    DeliveryRow(event, tenant, url, IN_FLIGHT, 1, None, None)
  }

  /** The write of `upsertInFlight`, after its read answered `existing`. */
  function WriteInFlight(db: Database, existing: Option<DeliveryId>, newId: DeliveryId,
                         event: EventId, tenant: TenantId, url: string): Database
    requires existing.Some? ==> existing.value in db.deliveries
  {
    match existing
    case Some(d) => db.(deliveries := db.deliveries[d := BeginAttempt(db.deliveries[d])])
    case None => db.(deliveries := db.deliveries[newId := FirstAttempt(event, tenant, url)])
  }

  function MarkSucceeded(db: Database, id: DeliveryId): Database
    requires id in db.deliveries
  {
    db.(deliveries := db.deliveries[id := db.deliveries[id].(status := SUCCEEDED, lastError := None)])
  }

  function MarkFailed(db: Database, id: DeliveryId, error: string, next: int): Database
    requires id in db.deliveries
  {
    db.(deliveries := db.deliveries[id :=
      db.deliveries[id].(status := FAILED, lastError := Some(Clip(error)), nextAttemptAt := Some(next))])
  }

  function MarkDeadLettered(db: Database, id: DeliveryId, error: string): Database
    requires id in db.deliveries
  {
    db.(deliveries := db.deliveries[id :=
      db.deliveries[id].(status := DEAD_LETTERED, lastError := Some(Clip(error)), nextAttemptAt := None)])
  }

  // ---- repositories/dead-letters.ts ----

  /** Upsert by delivery: an existing row keeps its event, tenant and destination. */
  function CreateDeadLetter(db: Database, delivery: DeliveryId, input: DeadLetterRow): Database {
    if delivery in db.deadLetters then
      db.(deadLetters := db.deadLetters[delivery :=
        db.deadLetters[delivery].(lastError := input.lastError, attempts := input.attempts, key := input.key)])
    else
      db.(deadLetters := db.deadLetters[delivery := input])
  }

  // ---- api/repositories/replays.ts ----

  datatype ReplayInput = ReplayInput(tenant: TenantId, source: DeliveryId, idempotencyKey: nat)

  /** What `sourceSelect` reads of a dead letter, its event and its delivery. */
  datatype Source = Source(tenant: TenantId, key: ArchiveKey, url: string, event: EventId, kind: string,
                           status: Status, replayed: bool)

  predicate HasKey(db: Database, r: ReplayId, tenant: TenantId, idempotencyKey: nat) {
    r in db.replays && db.replays[r].tenant == tenant && db.replays[r].idempotencyKey == idempotencyKey
  }

  predicate FoundByKey(db: Database, tenant: TenantId, idempotencyKey: nat, found: Option<ReplayId>) {
    match found
    case None => forall r | r in db.replays :: !HasKey(db, r, tenant, idempotencyKey)
    case Some(r) => HasKey(db, r, tenant, idempotencyKey)
  }

  predicate Replayed(db: Database, source: DeliveryId) {
    exists r :: r in db.replays && db.replays[r].source == source
  }

  /** `findFirst where { id, tenantId }`. The foreign keys make the event and the delivery exist. */
  function FindSource(db: Database, tenant: TenantId, id: DeliveryId): (found: Option<Source>)
    ensures found.Some? ==> id in db.deadLetters && found.value.tenant == tenant == db.deadLetters[id].tenant
  {
    if id in db.deadLetters && db.deadLetters[id].tenant == tenant &&
       db.deadLetters[id].event in db.events && id in db.deliveries then
      var row := db.deadLetters[id];
      Some(Source(row.tenant, row.key, row.url, row.event, db.events[row.event].kind,
                  db.deliveries[id].status, Replayed(db, id)))
    else None
  }

  /** The unique indexes on replays(source_dead_letter_id) and replays(tenant_id, idempotency_key). */
  predicate UniqueViolation(db: Database, input: ReplayInput) {
    Replayed(db, input.source) || exists r :: r in db.replays && HasKey(db, r, input.tenant, input.idempotencyKey)
  }

  /** The three inserts of `createReplay`, which commit or roll back together. */
  function InsertReplay(db: Database, input: ReplayInput, source: Source,
                        newEvent: EventId, newOutbox: OutboxId, newReplay: ReplayId): Database {
    CommitEvent(db, newEvent, newOutbox, EventRow(source.tenant, source.kind, JsonNull, Some(source.key)))
      .(replays := db.replays[newReplay := ReplayRow(input.tenant, input.source, newEvent, input.idempotencyKey)])
  }
}
