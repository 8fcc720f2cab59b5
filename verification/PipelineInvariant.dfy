/** The invariant of the pipeline and the kinds of effect its steps can have on it.
    Each effect keeps the tables as they should be and takes nothing back. */
module PipelineInvariant {
  import opened Store
  import opened Pipeline

  // ---- the invariant ----

  /** A message carries its event's tenant and type, and its payload inline or by claim-check. */
  ghost predicate MessageOk(s: State, m: Message) {
    && m.event in s.accepted
    && m.tenant == s.accepted[m.event].tenant
    && m.kind == s.accepted[m.event].kind
    && (m.key.None? ==> m.payload == s.accepted[m.event].payload)
    && (m.key.Some? ==> HoldsPayload(s, m.key.value, m.event))
  }

  ghost predicate EventsOk(s: State) {
    && s.db.events.Keys == s.accepted.Keys
    && s.accepted.Keys <= s.drawn
    && (forall e | e in s.db.events :: MessageOk(s, MessageOf(e, s.db.events[e])))
  }

  /** Every key holds the payload of the event it names, once that event is committed. */
  ghost predicate ArchiveOk(s: State) {
    forall k | k in s.archive ::
      && k.event in s.drawn
      && (k.DeadLetterKey? ==> k.event in s.accepted)
      && (k.event in s.accepted ==> s.archive[k] == s.accepted[k.event].payload)
  }

  /** The outbox row, the queue or the outcome still carries the event. */
  ghost predicate Carried(s: State, e: EventId) {
    Queued(s, e) || Settled(s, e)
  }

  ghost predicate OutboxOk(s: State) {
    && (forall o | o in s.db.outbox :: s.db.outbox[o].event in s.accepted)
    && (forall o | o in s.db.outbox && s.db.outbox[o].published :: Carried(s, s.db.outbox[o].event))
    && (forall e | e in s.accepted :: exists o :: o in s.db.outbox && s.db.outbox[o].event == e)
  }

  ghost predicate QueueOk(s: State) {
    && s.live <= s.bodies.Keys
    && (forall m | m in s.bodies && s.bodies[m].Parsed? :: MessageOk(s, s.bodies[m].message))
  }

  ghost predicate DeliveriesOk(s: State) {
    forall d | d in s.db.deliveries ::
      var row := s.db.deliveries[d];
      && row.event in s.accepted
      && row.tenant == s.accepted[row.event].tenant
      && (row.status == SUCCEEDED ==> Answered(s, row.event))
      && (row.status == DEAD_LETTERED ==> d in s.db.deadLetters)
  }

  ghost predicate DeadLettersOk(s: State) {
    forall d | d in s.db.deadLetters ::
      && d in s.db.deliveries
      && s.db.deadLetters[d].event == s.db.deliveries[d].event
      && s.db.deadLetters[d].tenant == s.db.deliveries[d].tenant
      && HoldsPayload(s, s.db.deadLetters[d].key, s.db.deadLetters[d].event)
  }

  ghost predicate PostOk(s: State, p: Post) {
    p.event in s.accepted && Content(p.tenant, p.kind, p.payload) == s.accepted[p.event]
  }

  ghost predicate ClaimOk(s: State, m: Message, claim: Claim) {
    && claim.delivery in s.db.deliveries
    && claim.event == s.db.deliveries[claim.delivery].event == m.event
    && claim.tenant == s.db.deliveries[claim.delivery].tenant
  }

  ghost predicate PhaseOk(s: State, m: Message, ph: Phase)
    requires m.event in s.accepted
  {
    && (ph.Writing? && ph.existing.Some? ==>
          ph.existing.value in s.db.deliveries && s.db.deliveries[ph.existing.value].event == m.event)
    && (Holds(Worker("", 0, Poison, ph)) ==> ClaimOk(s, m, ph.claim))
    && (ph.Sending? ==> ph.payload == s.accepted[m.event].payload)
    && (ph.Succeeding? ==> Answered(s, m.event))
    && (ph.Burying? ==> HoldsPayload(s, ph.key, m.event))
    && (ph.Marking? ==> ph.claim.delivery in s.db.deadLetters)
    && (ph.Acknowledging? ==> Settled(s, m.event))
  }

  ghost predicate WorkerOk(s: State, p: Proc)
    requires p.Worker?
  {
    && p.mid in s.bodies && s.bodies[p.mid] == p.body
    && (p.body.Poison? ==> p.phase.Received? || p.phase.Acknowledging? || p.phase.Deferring?)
    && (p.body.Parsed? ==> MessageOk(s, p.body.message) && PhaseOk(s, p.body.message, p.phase))
  }

  ghost predicate ProcOk(s: State, p: Proc) {
    match p
    case Api(id, content, large, uploaded) =>
      && id in s.drawn && id !in s.accepted
      && (uploaded ==> EventKey(content.tenant, id) in s.archive)
      && (forall k | k in s.archive && k.event == id :: s.archive[k] == content.payload)
    case Publisher(row, message, sent, confirmed) =>
      && row in s.db.outbox && s.db.outbox[row].event == message.event
      && MessageOk(s, message) && (confirmed ==> sent)
      && (sent ==> Carried(s, message.event))
    case Worker(url, mid, body, phase) => WorkerOk(s, p)
    case Replayer(input, source) =>
      && source.event in s.accepted && source.tenant == s.accepted[source.event].tenant
      && source.kind == s.accepted[source.event].kind
      && HoldsPayload(s, source.key, source.event)
  }

  /** Two requests never draw the same identifier. */
  ghost predicate IdsDistinct(s: State) {
    forall p, q | p in s.procs && q in s.procs && p != q && s.procs[p].Api? && s.procs[q].Api? ::
      s.procs[p].id != s.procs[q].id
  }

  /** A replay's content is that of the event it replays. */
  ghost predicate ReplaysOk(s: State) {
    forall e | e in s.replayOf ::
      e in s.accepted && s.replayOf[e] in s.accepted && s.accepted[e] == s.accepted[s.replayOf[e]]
  }

  ghost predicate Data(s: State) {
    && EventsOk(s) && ArchiveOk(s) && OutboxOk(s) && QueueOk(s)
    && DeliveriesOk(s) && DeadLettersOk(s) && ReplaysOk(s)
    && (forall p | p in s.posts :: PostOk(s, p))
  }

  ghost predicate Inv(s: State) {
    && Data(s)
    && IdsDistinct(s)
    && (forall pid | pid in s.procs :: ProcOk(s, s.procs[pid]))
  }

  // ---- what a step never takes back ----

  ghost predicate Later(s: State, t: State) {
    && (forall e | e in s.accepted :: e in t.accepted && t.accepted[e] == s.accepted[e])
    && s.drawn <= t.drawn
    && (forall k | k in s.archive :: k in t.archive && t.archive[k] == s.archive[k])
    && (forall m | m in s.bodies :: m in t.bodies && t.bodies[m] == s.bodies[m])
    && (forall p | p in s.posts :: p in t.posts)
    && (forall o | o in s.db.outbox :: o in t.db.outbox && t.db.outbox[o].event == s.db.outbox[o].event)
    && (forall d | d in s.db.deliveries ::
          d in t.db.deliveries && t.db.deliveries[d].event == s.db.deliveries[d].event
          && t.db.deliveries[d].tenant == s.db.deliveries[d].tenant)
    && (forall d | d in s.db.deadLetters ::
          d in t.db.deadLetters && t.db.deadLetters[d].event == s.db.deadLetters[d].event
          && HoldsPayload(t, t.db.deadLetters[d].key, t.db.deadLetters[d].event))
    && (forall e :: Carried(s, e) ==> Carried(t, e))
  }

  lemma SettledLater(s: State, t: State, e: EventId)
    requires Later(s, t) && Settled(s, e)
    ensures Settled(t, e)
    ensures Answered(s, e) ==> Answered(t, e)
  {
    if Answered(s, e) {
      var p :| p in s.posts && p.event == e && p.ok;
      assert p in t.posts;
    } else {
      var d :| d in s.db.deadLetters && BuriedBy(s, e, d);
      assert BuriedBy(t, e, d);
    }
  }

  /** A step of another process does not commit the identifier or archive anything under it. */
  ghost predicate Untouched(s: State, t: State, id: EventId) {
    id !in t.accepted && forall k | k in t.archive && k.event == id :: k in s.archive
  }

  lemma ProcLater(s: State, t: State, p: Proc)
    requires Later(s, t) && ProcOk(s, p)
    requires p.Api? ==> Untouched(s, t, p.id)
    ensures ProcOk(t, p)
  {
    if p.Worker? && p.body.Parsed? {
      var e := p.body.message.event;
      if Settled(s, e) { SettledLater(s, t, e); }
      if Answered(s, e) { SettledLater(s, t, e); }
    }
  }

  /** Only the process `pid` moved, and it is still as it should be. */
  ghost predicate OnlyMoved(s: State, t: State, pid: Pid) {
    && (forall q | q in t.procs && q != pid :: q in s.procs && t.procs[q] == s.procs[q])
    && (pid in t.procs ==> ProcOk(t, t.procs[pid]))
  }

  lemma Preserved(s: State, t: State, pid: Pid)
    requires Inv(s) && Later(s, t) && Data(t) && OnlyMoved(s, t, pid)
    requires forall q | q in t.procs && q != pid && t.procs[q].Api? :: Untouched(s, t, t.procs[q].id)
    requires pid in t.procs && t.procs[pid].Api? ==>
               forall q | q in t.procs && q != pid && t.procs[q].Api? :: t.procs[q].id != t.procs[pid].id
    ensures Inv(t)
  {
    forall q | q in t.procs ensures ProcOk(t, t.procs[q]) {
      if q != pid { ProcLater(s, t, s.procs[q]); }
    }
  }

  // ---- one lemma for each kind of effect a step can have ----

  /** Steps that only add rows, messages, calls and archives keep every carried event carried. */
  lemma CarriedMonotone(s: State, t: State)
    requires forall e | e in s.accepted :: e in t.accepted && t.accepted[e] == s.accepted[e]
    requires forall k | k in s.archive :: k in t.archive && t.archive[k] == s.archive[k]
    requires s.live <= t.live && forall m | m in s.bodies :: m in t.bodies && t.bodies[m] == s.bodies[m]
    requires forall p | p in s.posts :: p in t.posts
    requires s.db.deadLetters == t.db.deadLetters
    ensures forall e :: Carried(s, e) ==> Carried(t, e)
  {
    forall e | Carried(s, e) ensures Carried(t, e) {
      if Queued(s, e) {
        var m :| m in s.live && m in s.bodies && s.bodies[m].Parsed? && s.bodies[m].message.event == e;
        assert m in t.live && t.bodies[m].message.event == e;
      } else if Answered(s, e) {
        var p :| p in s.posts && p.event == e && p.ok;
        assert p in t.posts;
      } else {
        var d :| d in s.db.deadLetters && BuriedBy(s, e, d);
        assert BuriedBy(t, e, d);
      }
    }
  }

  /** A step that takes nothing from the queue and writes no dead letter. */
  lemma LaterByGrowth(s: State, t: State)
    requires DeadLettersOk(s)
    requires forall e | e in s.accepted :: e in t.accepted && t.accepted[e] == s.accepted[e]
    requires s.drawn <= t.drawn
    requires forall k | k in s.archive :: k in t.archive && t.archive[k] == s.archive[k]
    requires s.live <= t.live && forall m | m in s.bodies :: m in t.bodies && t.bodies[m] == s.bodies[m]
    requires forall p | p in s.posts :: p in t.posts
    requires forall o | o in s.db.outbox :: o in t.db.outbox && t.db.outbox[o].event == s.db.outbox[o].event
    requires forall d | d in s.db.deliveries ::
               d in t.db.deliveries && t.db.deliveries[d].event == s.db.deliveries[d].event
               && t.db.deliveries[d].tenant == s.db.deliveries[d].tenant
    requires s.db.deadLetters == t.db.deadLetters
    ensures Later(s, t)
  {
    CarriedMonotone(s, t);
  }

  // ---- each table is still as it should be when a step left it alone ----

  lemma EventsStable(s: State, t: State)
    requires EventsOk(s) && Later(s, t) && t.db.events == s.db.events && t.accepted == s.accepted
    ensures EventsOk(t)
  {
  }

  lemma OutboxStable(s: State, t: State)
    requires OutboxOk(s) && Later(s, t) && t.db.outbox == s.db.outbox && t.accepted == s.accepted
    ensures OutboxOk(t)
  {
  }

  lemma QueueStable(s: State, t: State)
    requires QueueOk(s) && Later(s, t) && t.bodies == s.bodies && t.live <= s.live
    ensures QueueOk(t)
  {
  }

  lemma DeliveriesStable(s: State, t: State)
    requires DeliveriesOk(s) && Later(s, t) && t.db.deliveries == s.db.deliveries
    ensures DeliveriesOk(t)
  {
    forall d | d in t.db.deliveries && t.db.deliveries[d].status == SUCCEEDED
      ensures Answered(t, t.db.deliveries[d].event)
    {
      SettledLater(s, t, s.db.deliveries[d].event);
    }
  }

  lemma DeadLettersStable(s: State, t: State)
    requires DeadLettersOk(s) && Later(s, t) && t.db.deadLetters == s.db.deadLetters
    ensures DeadLettersOk(t)
  {
  }

  /** A step changed some tables, which are as they should be, and left the others alone. */
  lemma DataStable(s: State, t: State)
    requires Data(s) && Later(s, t)
    requires (t.db.events == s.db.events && t.accepted == s.accepted) || EventsOk(t)
    requires (t.archive == s.archive && t.accepted == s.accepted) || ArchiveOk(t)
    requires (t.db.outbox == s.db.outbox && t.accepted == s.accepted) || OutboxOk(t)
    requires (t.bodies == s.bodies && t.live <= s.live) || QueueOk(t)
    requires t.db.deliveries == s.db.deliveries || DeliveriesOk(t)
    requires t.db.deadLetters == s.db.deadLetters || DeadLettersOk(t)
    requires t.replayOf == s.replayOf || ReplaysOk(t)
    requires t.posts == s.posts || forall p | p in t.posts :: PostOk(t, p)
    ensures Data(t)
  {
    hide EventsOk, ArchiveOk, OutboxOk, QueueOk, DeliveriesOk, DeadLettersOk;
    if t.db.events == s.db.events && t.accepted == s.accepted { EventsStable(s, t); }
    if t.archive == s.archive && t.accepted == s.accepted { ArchiveStable(s, t); }
    if t.db.outbox == s.db.outbox && t.accepted == s.accepted { OutboxStable(s, t); }
    if t.bodies == s.bodies && t.live <= s.live { QueueStable(s, t); }
    if t.db.deliveries == s.db.deliveries { DeliveriesStable(s, t); }
    if t.db.deadLetters == s.db.deadLetters { DeadLettersStable(s, t); }
  }

  lemma ArchiveStable(s: State, t: State)
    requires ArchiveOk(s) && t.archive == s.archive && t.accepted == s.accepted && s.drawn <= t.drawn
    ensures ArchiveOk(t)
  {
  }

  // ---- one lemma for each kind of effect a step can have ----

  /** Nothing but local variables, the drawn identifiers and the interruption counts changed. */
  lemma LocalEffect(s: State, t: State)
    requires Data(s) && s.drawn <= t.drawn
    requires t == s.(procs := t.procs, interrupted := t.interrupted, drawn := t.drawn)
    ensures Later(s, t) && Data(t)
  {
    hide EventsOk, ArchiveOk, OutboxOk, QueueOk, DeliveriesOk;
    LaterByGrowth(s, t);
    EventsStable(s, t);
    DataStable(s, t);
  }

  lemma ArchiveEffect(s: State, t: State, k: ArchiveKey, v: Payload)
    requires Data(s)
    requires t == s.(archive := s.archive[k := v], procs := t.procs)
    requires k in s.archive ==> s.archive[k] == v
    requires k.event in s.drawn
    requires k.DeadLetterKey? ==> k.event in s.accepted
    requires k.event in s.accepted ==> v == s.accepted[k.event].payload
    ensures Later(s, t) && Data(t)
  {
    hide EventsOk, OutboxOk, QueueOk, DeliveriesOk;
    LaterByGrowth(s, t);
    DataStable(s, t);
  }

  /** A committed event with its unpublished outbox row, from ingestion or from a replay. */
  lemma EventEffect(s: State, t: State, e: EventId, content: Content, o: OutboxId, row: EventRow)
    requires Data(s)
    requires e !in s.accepted && o !in s.db.outbox && e in t.drawn && s.drawn <= t.drawn
    requires forall k | k in s.archive && k.event == e :: s.archive[k] == content.payload
    requires t == s.(db := CommitEvent(s.db, e, o, row).(replays := t.db.replays), accepted := s.accepted[e := content],
                     procs := t.procs, drawn := t.drawn, replayOf := t.replayOf)
    requires MessageOk(t, MessageOf(e, row))
    requires t.replayOf == s.replayOf || ReplaysOk(t)
    ensures Later(s, t) && Data(t)
  {
    hide EventsOk, ArchiveOk, OutboxOk, QueueOk, DeliveriesOk, DeadLettersOk, Later;
    LaterByGrowth(s, t);
    NewEventOk(s, t, e, content, o, row);
    NewOutboxOk(s, t, e, o);
    NewArchiveOk(s, t, e, content);
    DataStable(s, t);
  }

  lemma NewEventOk(s: State, t: State, e: EventId, content: Content, o: OutboxId, row: EventRow)
    requires EventsOk(s) && Later(s, t) && e in t.drawn
    requires t.db.events == s.db.events[e := row] && t.accepted == s.accepted[e := content]
    requires MessageOk(t, MessageOf(e, row))
    ensures EventsOk(t)
  {
  }

  lemma NewArchiveOk(s: State, t: State, e: EventId, content: Content)
    requires ArchiveOk(s) && t.archive == s.archive && s.drawn <= t.drawn && t.accepted == s.accepted[e := content]
             && e !in s.accepted
    requires forall k | k in s.archive && k.event == e :: s.archive[k] == content.payload
    ensures ArchiveOk(t)
  {
  }

  lemma NewOutboxOk(s: State, t: State, e: EventId, o: OutboxId)
    requires OutboxOk(s) && Later(s, t) && o !in s.db.outbox
    requires t.db.outbox == s.db.outbox[o := OutboxRow(e, false)] && t.accepted.Keys == s.accepted.Keys + {e}
    ensures OutboxOk(t)
  {
    assert t.db.outbox[o].event == e;
    forall f | f in t.accepted ensures exists p :: p in t.db.outbox && t.db.outbox[p].event == f {
      if f in s.accepted {
        var p :| p in s.db.outbox && s.db.outbox[p].event == f;
        assert t.db.outbox[p].event == f;
      }
    }
  }

  lemma SentEffect(s: State, t: State, mid: MessageId, body: Body)
    requires Data(s) && mid !in s.bodies
    requires t == s.(bodies := s.bodies[mid := body], live := s.live + {mid}, procs := t.procs)
    requires body.Parsed? ==> MessageOk(s, body.message)
    ensures Later(s, t) && Data(t)
    ensures body.Parsed? ==> Carried(t, body.message.event)
  {
    hide EventsOk, ArchiveOk, OutboxOk, DeliveriesOk;
    LaterByGrowth(s, t);
    DataStable(s, t);
    assert body.Parsed? ==> mid in t.live && t.bodies[mid].message.event == body.message.event;
  }

  lemma MarkedEffect(s: State, t: State, o: OutboxId)
    requires Data(s) && o in s.db.outbox && Carried(s, s.db.outbox[o].event)
    requires t == s.(db := s.db.(outbox := s.db.outbox[o := s.db.outbox[o].(published := true)]), procs := t.procs)
    ensures Later(s, t) && Data(t)
  {
    hide EventsOk, ArchiveOk, QueueOk, DeliveriesOk;
    LaterByGrowth(s, t);
    MarkedOk(s, t, o);
    hide OutboxOk;
    DataStable(s, t);
  }

  lemma MarkedOk(s: State, t: State, o: OutboxId)
    requires OutboxOk(s) && Later(s, t) && o in s.db.outbox && Carried(s, s.db.outbox[o].event)
    requires t.accepted == s.accepted && t.db.outbox == s.db.outbox[o := s.db.outbox[o].(published := true)]
    ensures OutboxOk(t)
  {
    forall e | e in t.accepted ensures exists p :: p in t.db.outbox && t.db.outbox[p].event == e {
      var p :| p in s.db.outbox && s.db.outbox[p].event == e;
      assert t.db.outbox[p].event == e;
    }
  }

  lemma DeliveryEffect(s: State, t: State, d: DeliveryId, row: DeliveryRow)
    requires Data(s)
    requires t == s.(db := s.db.(deliveries := s.db.deliveries[d := row]), procs := t.procs)
    requires d in s.db.deliveries ==> row.event == s.db.deliveries[d].event && row.tenant == s.db.deliveries[d].tenant
    requires row.event in s.accepted && row.tenant == s.accepted[row.event].tenant
    requires row.status == SUCCEEDED ==> Answered(s, row.event)
    requires row.status == DEAD_LETTERED ==> d in s.db.deadLetters
    ensures Later(s, t) && Data(t)
  {
    hide EventsOk, ArchiveOk, OutboxOk, QueueOk;
    LaterByGrowth(s, t);
    WrittenOk(s, t, d, row);
    hide DeliveriesOk;
    DataStable(s, t);
  }

  lemma WrittenOk(s: State, t: State, d: DeliveryId, row: DeliveryRow)
    requires DeliveriesOk(s) && Later(s, t) && t.accepted == s.accepted
    requires t.db.deliveries == s.db.deliveries[d := row] && t.db.deadLetters == s.db.deadLetters
    requires row.event in s.accepted && row.tenant == s.accepted[row.event].tenant
    requires row.status == SUCCEEDED ==> Answered(s, row.event)
    requires row.status == DEAD_LETTERED ==> d in s.db.deadLetters
    ensures DeliveriesOk(t)
  {
    forall x | x in t.db.deliveries && t.db.deliveries[x].status == SUCCEEDED
      ensures Answered(t, t.db.deliveries[x].event)
    {
      SettledLater(s, t, t.db.deliveries[x].event);
    }
  }

  lemma PostedEffect(s: State, t: State, p: Post)
    requires Data(s) && PostOk(s, p)
    requires t == s.(posts := s.posts + [p], procs := t.procs)
    ensures Later(s, t) && Data(t)
    ensures p.ok ==> Answered(t, p.event)
  {
    hide EventsOk, ArchiveOk, OutboxOk, QueueOk, DeliveriesOk;
    LaterByGrowth(s, t);
    DataStable(s, t);
    assert p in t.posts;
  }

  lemma BuriedEffect(s: State, t: State, d: DeliveryId, row: DeadLetterRow)
    requires Data(s)
    requires t == s.(db := s.db.(deadLetters := s.db.deadLetters[d := row]), procs := t.procs)
    requires d in s.db.deliveries && row.event == s.db.deliveries[d].event && row.tenant == s.db.deliveries[d].tenant
    requires HoldsPayload(s, row.key, row.event)
    ensures Later(s, t) && Data(t)
  {
    hide EventsOk, ArchiveOk, OutboxOk, QueueOk, DeliveriesOk;
    forall e | Carried(s, e) ensures Carried(t, e) {
      CarriedWhenBuried(s, t, d, row, e);
    }
    assert Later(s, t);
    BuriedDeliveriesOk(s, t, d);
    DataStable(s, t);
  }

  lemma BuriedDeliveriesOk(s: State, t: State, d: DeliveryId)
    requires DeliveriesOk(s) && t.db.deliveries == s.db.deliveries && t.accepted == s.accepted && t.posts == s.posts
    requires s.db.deadLetters.Keys <= t.db.deadLetters.Keys
    ensures DeliveriesOk(t)
  {
  }

  lemma CarriedWhenBuried(s: State, t: State, d: DeliveryId, row: DeadLetterRow, e: EventId)
    requires DeadLettersOk(s) && Carried(s, e)
    requires t == s.(db := s.db.(deadLetters := s.db.deadLetters[d := row]), procs := t.procs)
    requires d in s.db.deliveries && row.event == s.db.deliveries[d].event
    requires HoldsPayload(s, row.key, row.event)
    ensures Carried(t, e)
  {
    if Queued(s, e) {
      var m :| m in s.live && m in s.bodies && s.bodies[m].Parsed? && s.bodies[m].message.event == e;
      assert m in t.live && t.bodies[m].message.event == e;
    } else if Buried(s, e) {
      var x :| x in s.db.deadLetters && BuriedBy(s, e, x);
      assert BuriedBy(t, e, x);
    }
  }

  /** A message may leave the queue only when it does not parse or its event is settled. */
  lemma DeletedEffect(s: State, t: State, mid: MessageId)
    requires Data(s) && mid in s.bodies
    requires t == s.(live := s.live - {mid}, procs := t.procs)
    requires s.bodies[mid].Parsed? ==> Settled(s, s.bodies[mid].message.event)
    ensures Later(s, t) && Data(t)
  {
    hide EventsOk, ArchiveOk, OutboxOk, QueueOk, DeliveriesOk;
    forall e | Carried(s, e) ensures Carried(t, e) {
      CarriedWhenDeleted(s, t, mid, e);
    }
    assert Later(s, t);
    DataStable(s, t);
  }

  lemma CarriedWhenDeleted(s: State, t: State, mid: MessageId, e: EventId)
    requires Carried(s, e) && mid in s.bodies
    requires t == s.(live := s.live - {mid}, procs := t.procs)
    requires s.bodies[mid].Parsed? ==> Settled(s, s.bodies[mid].message.event)
    ensures Carried(t, e)
  {
    if Settled(s, e) {
      if Buried(s, e) {
        var d :| d in s.db.deadLetters && BuriedBy(s, e, d);
        assert BuriedBy(t, e, d);
      }
    } else {
      var m :| m in s.live && m in s.bodies && s.bodies[m].Parsed? && s.bodies[m].message.event == e;
      assert m in t.live && t.bodies[m].message.event == e;
    }
  }
}
