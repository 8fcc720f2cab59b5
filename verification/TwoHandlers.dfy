/** Why terminal deliveries are only final with one handler at a time: upsertInFlight does not look at
    the status, so a second handler that read the row before reopens it. */
module TwoHandlers {
  import opened Store
  import opened Backoff
  import opened Pipeline
  import opened Handling

  lemma Swap(s: State, p: Pid, q: Pid, x: Proc, y: Proc)
    requires p != q
    ensures With(With(s, p, x), q, y) == With(With(s, q, y), p, x)
  {
    assert s.procs[p := x][q := y] == s.procs[q := y][p := x];
  }

  // ---- the first handler begins the attempt, and the second reads its row ----

  /** A handler from receiving the message to the read of upsertInFlight. */
  function Approach(pid: Pid, mid: MessageId, url: string, found: Option<DeliveryId>, now: int): seq<Action> {
    [Receive(pid, mid, url)] + [Admit(pid, true)] + [Lookup(pid, found, now)] + [ReadExisting(pid, found)]
  }

  /** The delivery is new, or waits for an attempt that is due. */
  ghost predicate Due(db: Database, m: Message, url: string, found: Option<DeliveryId>, now: int) {
    && IsFirst(db, m.event, url, found)
    && (found.Some? ==>
          found.value in db.deliveries &&
          var row := db.deliveries[found.value];
          && row.status != SUCCEEDED && row.status != DEAD_LETTERED
          && (row.nextAttemptAt.None? || row.nextAttemptAt.value <= now))
  }

  lemma ApproachAt(c: Config, s: State, pid: Pid, mid: MessageId, url: string, m: Message, found: Option<DeliveryId>,
                   now: int)
    requires Absent(s, pid) && mid in s.bodies && s.bodies[mid] == Parsed(m) && Due(s.db, m, url, found, now)
    ensures After(c, s, Approach(pid, mid, url, found, now)) == With(s, pid, On(url, mid, m, Writing(found)))
  {
    var admitted := [Receive(pid, mid, url)] + [Admit(pid, true)];
    var looked := admitted + [Lookup(pid, found, now)];
    assert Approach(pid, mid, url, found, now) == looked + [ReadExisting(pid, found)];
    ReceivedAt(c, s, pid, mid, url, true);
    LookupRun(c, s, s, admitted, pid, url, mid, m, found, now);
    assert After(c, s, looked) == With(s, pid, On(url, mid, m, Upserting));
    hide *;
    AfterOne(c, s, looked, ReadExisting(pid, found));
    NextIs(c, After(c, s, looked), ReadExisting(pid, found));
    ReadExistingAt(s, pid, url, mid, m, found);
  }

  lemma ReadExistingAt(s: State, pid: Pid, url: string, mid: MessageId, m: Message, found: Option<DeliveryId>)
    requires IsFirst(s.db, m.event, url, found)
    ensures ReadExistingStep(With(s, pid, On(url, mid, m, Upserting)), pid, found) ==
            With(s, pid, On(url, mid, m, Writing(found)))
  {
    Updated(s, pid, On(url, mid, m, Upserting), On(url, mid, m, Writing(found)));
  }

  lemma WriteRun(c: Config, start: State, before: seq<Action>, s: State, pid: Pid, url: string, mid: MessageId,
                 m: Message, found: Option<DeliveryId>, newId: DeliveryId)
    requires After(c, start, before) == With(s, pid, On(url, mid, m, Writing(found)))
    requires newId !in s.db.deliveries && (found.Some? ==> found.value in s.db.deliveries)
    ensures var db := WriteInFlight(s.db, found, newId, m.event, m.tenant, url);
            After(c, start, before + [WriteAttempt(pid, newId)]) ==
            With(s.(db := db), pid, On(url, mid, m, Preparing(ClaimOf(db, Row(found, newId)))))
  {
    WriteAt(s, pid, url, mid, m, found, newId);
    hide *;
    AfterOne(c, start, before, WriteAttempt(pid, newId));
    NextIs(c, After(c, start, before), WriteAttempt(pid, newId));
  }

  /** The row that upsertInFlight writes. */
  function Row(found: Option<DeliveryId>, newId: DeliveryId): DeliveryId {
    if found.Some? then found.value else newId
  }

  lemma WriteAt(s: State, pid: Pid, url: string, mid: MessageId, m: Message, found: Option<DeliveryId>,
                newId: DeliveryId)
    requires newId !in s.db.deliveries && (found.Some? ==> found.value in s.db.deliveries)
    ensures var db := WriteInFlight(s.db, found, newId, m.event, m.tenant, url);
            WriteAttemptStep(With(s, pid, On(url, mid, m, Writing(found))), pid, newId) ==
            With(s.(db := db), pid, On(url, mid, m, Preparing(ClaimOf(db, Row(found, newId)))))
  {
    var db := WriteInFlight(s.db, found, newId, m.event, m.tenant, url);
    Updated(s.(db := db), pid, On(url, mid, m, Writing(found)),
            On(url, mid, m, Preparing(ClaimOf(db, Row(found, newId)))));
  }

  /** The tables once the first handler has begun the attempt. */
  function Begun(db: Database, m: Message, url: string, found: Option<DeliveryId>, newId: DeliveryId): Database
    requires found.Some? ==> found.value in db.deliveries
  {
    WriteInFlight(db, found, newId, m.event, m.tenant, url)
  }

  lemma BegunIsDue(db: Database, m: Message, url: string, found: Option<DeliveryId>, newId: DeliveryId, now: int)
    requires Due(db, m, url, found, now) && newId !in db.deliveries
    ensures var t := Begun(db, m, url, found, newId); var d := Row(found, newId);
            && Due(t, m, url, Some(d), now) && t.deliveries.Keys == db.deliveries.Keys + {d}
            && t.deliveries[d].attempts == (if found.Some? then db.deliveries[found.value].attempts + 1 else 1)
  {
  }

  function BothRead(p: Pid, q: Pid, mid: MessageId, url: string, found: Option<DeliveryId>, newId: DeliveryId,
                    now: int): seq<Action> {
    Approach(p, mid, url, found, now) + [WriteAttempt(p, newId)] + Approach(q, mid, url, Some(Row(found, newId)), now)
  }

  lemma BothReadAt(c: Config, s: State, p: Pid, q: Pid, mid: MessageId, url: string, m: Message,
                   found: Option<DeliveryId>, newId: DeliveryId, now: int)
    requires Absent(s, p) && Absent(s, q) && p != q && mid in s.bodies && s.bodies[mid] == Parsed(m)
    requires Due(s.db, m, url, found, now) && newId !in s.db.deliveries
    ensures var db := Begun(s.db, m, url, found, newId); var d := Row(found, newId);
            && d in db.deliveries
            && After(c, s, BothRead(p, q, mid, url, found, newId, now)) ==
               With(With(s.(db := db), q, On(url, mid, m, Writing(Some(d)))), p,
                    On(url, mid, m, Preparing(ClaimOf(db, d))))
  {
    hide Approach, After, With, Due, WriteInFlight;
    var d := Row(found, newId);
    BegunIsDue(s.db, m, url, found, newId, now);
    FoundIsThere(s.db, m, url, found, now);
    var db := Begun(s.db, m, url, found, newId);
    ApproachAt(c, s, p, mid, url, m, found, now);
    WriteRun(c, s, Approach(p, mid, url, found, now), s, p, url, mid, m, found, newId);
    var first := Approach(p, mid, url, found, now) + [WriteAttempt(p, newId)];
    var begun := With(s.(db := db), p, On(url, mid, m, Preparing(ClaimOf(db, d))));
    StillAbsent(s.(db := db), p, q, On(url, mid, m, Preparing(ClaimOf(db, d))));
    ApproachAt(c, begun, q, mid, url, m, Some(d), now);
    AfterPlus(c, s, first, Approach(q, mid, url, Some(d), now));
    Swap(s.(db := db), p, q, On(url, mid, m, Preparing(ClaimOf(db, d))), On(url, mid, m, Writing(Some(d))));
  }

  lemma FoundIsThere(db: Database, m: Message, url: string, found: Option<DeliveryId>, now: int)
    requires Due(db, m, url, found, now)
    ensures found.Some? ==> found.value in db.deliveries
  {
  }

  lemma StillAbsent(s: State, p: Pid, q: Pid, x: Proc)
    requires Absent(s, q) && p != q
    ensures var t := With(s, p, x); Absent(t, q) && t.db == s.db && t.bodies == s.bodies
  {
  }

  // ---- the first handler ends the delivery ----

  function Delivered(p: Pid): seq<Action> {
    [Prepare(p, true, "")] + [Call(p, true, true, "")] + [Succeed(p)]
  }

  /** A 2xx answer that is seen. */
  lemma DeliveredAt(c: Config, start: State, before: seq<Action>, s: State, p: Pid, url: string, mid: MessageId,
                    m: Message, claim: Claim)
    requires (m.key.Some? ==> m.key.value in s.archive) && claim.delivery in s.db.deliveries
    requires After(c, start, before) == With(s, p, On(url, mid, m, Preparing(claim)))
    ensures var payload := if m.key.None? then m.payload else s.archive[m.key.value];
            After(c, start, before + Delivered(p)) ==
            With(s.(posts := s.posts + [Post(url, m.event, m.tenant, m.kind, payload, true)],
                    db := MarkSucceeded(s.db, claim.delivery)), p, On(url, mid, m, Acknowledging))
  {
    hide After, With, MarkSucceeded;
    var payload := if m.key.None? then m.payload else s.archive[m.key.value];
    PrepareRun(c, s, start, before, p, url, mid, m, claim, true, "");
    var posted := s.(posts := s.posts + [Post(url, m.event, m.tenant, m.kind, payload, true)]);
    CallRun(c, s, start, before + [Prepare(p, true, "")], p, url, mid, m, claim, payload, true, true, "");
    SucceedRun(c, posted, start, before + [Prepare(p, true, "")] + [Call(p, true, true, "")], p, url, mid, m, claim);
    assert before + [Prepare(p, true, "")] + [Call(p, true, true, "")] + [Succeed(p)] == before + Delivered(p);
  }

  function GivenUp(p: Pid): seq<Action> {
    [Prepare(p, false, "")] + [Decide(p)] + [Archive(p)] + [Bury(p)] + [MarkDead(p)]
  }

  /** The last attempt of the budget fails. */
  lemma GivenUpAt(c: Config, start: State, before: seq<Action>, s: State, p: Pid, url: string, mid: MessageId,
                  m: Message, claim: Claim)
    requires claim.delivery in s.db.deliveries && IsExhausted(claim.attempts, c.maxAttempts)
    requires After(c, start, before) == With(s, p, On(url, mid, m, Preparing(claim)))
    ensures After(c, start, before + GivenUp(p)) ==
            With(s.(archive := Archived(s.archive, m), db := DeadLettered(s.db, url, m, claim, "")),
                 p, On(url, mid, m, Acknowledging))
  {
    hide After, With, DeadLettered, Archived;
    PrepareRun(c, s, start, before, p, url, mid, m, claim, false, "");
    DecideRun(c, s, start, before + [Prepare(p, false, "")], p, url, mid, m, claim, "");
    DeadLetterRun(c, s, start, before + [Prepare(p, false, "")] + [Decide(p)], p, url, mid, m, claim, "");
    assert before + [Prepare(p, false, "")] + [Decide(p)] + [Archive(p)] + [Bury(p)] + [MarkDead(p)] ==
           before + GivenUp(p);
  }

  // ---- the second handler reopens it ----

  lemma Reopens(c: Config, start: State, run: seq<Action>, done: State, p: Pid, q: Pid, mid: MessageId, url: string,
                m: Message, d: DeliveryId, other: DeliveryId)
    requires p != q && d in done.db.deliveries && other !in done.db.deliveries
    requires After(c, start, run) == With(With(done, q, On(url, mid, m, Writing(Some(d)))), p,
                                          On(url, mid, m, Acknowledging))
    ensures After(c, start, run).db == done.db
    ensures var t := After(c, start, run + [WriteAttempt(q, other)]).db.deliveries;
            d in t && t[d].status == IN_FLIGHT && t[d].attempts == done.db.deliveries[d].attempts + 1
  {
    Swap(done, p, q, On(url, mid, m, Acknowledging), On(url, mid, m, Writing(Some(d))));
    var settled := With(done, p, On(url, mid, m, Acknowledging));
    WriteRun(c, start, run, settled, q, url, mid, m, Some(d), other);
    hide After;
  }

  /** From any state with a message whose delivery is new or due, two handlers of that message can bring
      the delivery to SUCCEEDED and then back in flight. */
  lemma SucceededIsReopened(c: Config, s: State, p: Pid, q: Pid, mid: MessageId, url: string, m: Message,
                            found: Option<DeliveryId>, newId: DeliveryId, other: DeliveryId, now: int)
    requires Absent(s, p) && Absent(s, q) && p != q && mid in s.bodies && s.bodies[mid] == Parsed(m)
    requires m.key.Some? ==> m.key.value in s.archive
    requires Due(s.db, m, url, found, now) && newId !in s.db.deliveries && other !in s.db.deliveries && other != newId
    ensures var run := BothRead(p, q, mid, url, found, newId, now) + Delivered(p); var d := Row(found, newId);
            var t, u := After(c, s, run).db.deliveries, After(c, s, run + [WriteAttempt(q, other)]).db.deliveries;
            d in t && t[d].status == SUCCEEDED && d in u && u[d].status == IN_FLIGHT
  {
    hide After, With, Due, BothRead, Delivered, WriteInFlight;
    var d := Row(found, newId);
    FoundIsThere(s.db, m, url, found, now);
    var db := Begun(s.db, m, url, found, newId);
    BegunIsDue(s.db, m, url, found, newId, now);
    BothReadAt(c, s, p, q, mid, url, m, found, newId, now);
    var reading := With(s.(db := db), q, On(url, mid, m, Writing(Some(d))));
    WithFields(s.(db := db), q, On(url, mid, m, Writing(Some(d))));
    DeliveredAt(c, s, BothRead(p, q, mid, url, found, newId, now), reading, p, url, mid, m, ClaimOf(db, d));
    var payload := if m.key.None? then m.payload else s.archive[m.key.value];
    var done := s.(posts := s.posts + [Post(url, m.event, m.tenant, m.kind, payload, true)],
                   db := MarkSucceeded(db, d));
    WithCommutes(s.(db := db), q, On(url, mid, m, Writing(Some(d))), done);
    Reopens(c, s, BothRead(p, q, mid, url, found, newId, now) + Delivered(p), done, p, q, mid, url, m, d, other);
  }

  /** The same with the last attempt of the budget, which ends in DEAD_LETTERED. */
  lemma DeadLetteredIsReopened(c: Config, s: State, p: Pid, q: Pid, mid: MessageId, url: string, m: Message,
                               found: Option<DeliveryId>, newId: DeliveryId, other: DeliveryId, now: int)
    requires Absent(s, p) && Absent(s, q) && p != q && mid in s.bodies && s.bodies[mid] == Parsed(m)
    requires Due(s.db, m, url, found, now) && newId !in s.db.deliveries && other !in s.db.deliveries && other != newId
    requires IsExhausted(if found.Some? then s.db.deliveries[found.value].attempts + 1 else 1, c.maxAttempts)
    ensures var run := BothRead(p, q, mid, url, found, newId, now) + GivenUp(p); var d := Row(found, newId);
            var t, u := After(c, s, run).db.deliveries, After(c, s, run + [WriteAttempt(q, other)]).db.deliveries;
            d in t && t[d].status == DEAD_LETTERED && d in u && u[d].status == IN_FLIGHT
  {
    hide After, With, Due, BothRead, GivenUp, WriteInFlight;
    var d := Row(found, newId);
    FoundIsThere(s.db, m, url, found, now);
    var db := Begun(s.db, m, url, found, newId);
    BegunIsDue(s.db, m, url, found, newId, now);
    BothReadAt(c, s, p, q, mid, url, m, found, newId, now);
    var reading := With(s.(db := db), q, On(url, mid, m, Writing(Some(d))));
    WithFields(s.(db := db), q, On(url, mid, m, Writing(Some(d))));
    GivenUpAt(c, s, BothRead(p, q, mid, url, found, newId, now), reading, p, url, mid, m, ClaimOf(db, d));
    var done := s.(archive := Archived(s.archive, m), db := DeadLettered(db, url, m, ClaimOf(db, d), ""));
    WithCommutes(s.(db := db), q, On(url, mid, m, Writing(Some(d))), done);
    Reopens(c, s, BothRead(p, q, mid, url, found, newId, now) + GivenUp(p), done, p, q, mid, url, m, d, other);
  }

  lemma WithFields(s: State, q: Pid, x: Proc)
    ensures var t := With(s, q, x); t.db == s.db && t.archive == s.archive && t.posts == s.posts
  {
  }

  lemma WithCommutes(s: State, q: Pid, x: Proc, t: State)
    requires t.procs == s.procs
    requires t == s.(db := t.db, archive := t.archive, posts := t.posts)
    ensures With(s, q, x).(posts := t.posts, db := t.db) == With(s.(posts := t.posts, db := t.db), q, x)
    ensures With(s, q, x).(archive := t.archive, db := t.db) == With(s.(archive := t.archive, db := t.db), q, x)
  {
  }
}
