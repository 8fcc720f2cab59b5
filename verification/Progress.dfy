/** No event gets stuck: from every reachable state an event that is not settled can still be delivered, whatever has
    crashed, failed or been repeated before. */
module Progress {
  import opened Store
  import opened Pipeline
  import opened PipelineInvariant
  import opened PipelineSafety
  import opened Handling
  import opened TwoHandlers
  import opened Publishing

  /** The event was posted to `url` as it was accepted, answered with 2xx, and its delivery is SUCCEEDED. */
  ghost predicate DeliveredTo(s: State, e: EventId, url: string) {
    && e in s.accepted
    && Post(url, e, s.accepted[e].tenant, s.accepted[e].kind, s.accepted[e].payload, true) in s.posts
    && exists d :: Succeeded(s, d, e, url)
  }

  predicate Succeeded(s: State, d: DeliveryId, e: EventId, url: string) {
    d in s.db.deliveries && s.db.deliveries[d].event == e && s.db.deliveries[d].url == url &&
    s.db.deliveries[d].status == SUCCEEDED
  }

  ghost predicate NoneComplete(s: State, e: EventId, url: string) {
    forall d | d in s.db.deliveries && s.db.deliveries[d].event == e && s.db.deliveries[d].url == url ::
      s.db.deliveries[d].status != SUCCEEDED && s.db.deliveries[d].status != DEAD_LETTERED
  }

  /** What the lookup answers, and a time at which the delivery is due. */
  lemma DueAt(s: State, m: Message, url: string) returns (found: Option<DeliveryId>, now: int)
    requires NoneComplete(s, m.event, url)
    ensures Due(s.db, m, url, found, now)
  {
    found, now := None, 0;
    if d :| d in s.db.deliveries && Matches(s.db.deliveries[d], m.event, url) {
      found := Some(d);
      if s.db.deliveries[d].nextAttemptAt.Some? {
        now := s.db.deliveries[d].nextAttemptAt.value;
      }
    }
  }

  lemma PayloadOf(s: State, mid: MessageId, m: Message)
    requires Inv(s) && mid in s.bodies && s.bodies[mid] == Parsed(m)
    ensures m.event in s.accepted && m.tenant == s.accepted[m.event].tenant && m.kind == s.accepted[m.event].kind
    ensures m.key.Some? ==> m.key.value in s.archive
    ensures (if m.key.None? then m.payload else s.archive[m.key.value]) == s.accepted[m.event].payload
  {
    assert MessageOk(s, m);
    hide EventsOk, ArchiveOk, OutboxOk, DeliveriesOk, DeadLettersOk, ReplaysOk;
  }

  lemma WrittenRow(db: Database, found: Option<DeliveryId>, newId: DeliveryId, m: Message, url: string)
    requires found.Some? ==> found.value in db.deliveries
    ensures var t := WriteInFlight(db, found, newId, m.event, m.tenant, url); var d := Row(found, newId);
            d in t.deliveries && ClaimOf(t, d).delivery == d
  {
  }

  function HandlingOf(pid: Pid, mid: MessageId, url: string, found: Option<DeliveryId>, newId: DeliveryId,
                    now: int): seq<Action> {
    Approach(pid, mid, url, found, now) + [WriteAttempt(pid, newId)] + Delivered(pid)
  }

  /** The whole handling: the message is received and attempted, and its 2xx answer recorded. */
  lemma HandledAt(c: Config, s: State, pid: Pid, mid: MessageId, m: Message, url: string, found: Option<DeliveryId>,
                  newId: DeliveryId, now: int)
    requires Absent(s, pid) && mid in s.bodies && s.bodies[mid] == Parsed(m) && newId !in s.db.deliveries
    requires Due(s.db, m, url, found, now) && (found.Some? ==> found.value in s.db.deliveries)
    requires m.key.Some? ==> m.key.value in s.archive
    ensures var db := WriteInFlight(s.db, found, newId, m.event, m.tenant, url); var d := Row(found, newId);
            var payload := if m.key.None? then m.payload else s.archive[m.key.value];
            && d in db.deliveries
            && After(c, s, HandlingOf(pid, mid, url, found, newId, now)) ==
               With(s.(posts := s.posts + [Post(url, m.event, m.tenant, m.kind, payload, true)],
                       db := MarkSucceeded(db, d)), pid, On(url, mid, m, Acknowledging))
  {
    var begin := Approach(pid, mid, url, found, now);
    assert HandlingOf(pid, mid, url, found, newId, now) == begin + [WriteAttempt(pid, newId)] + Delivered(pid);
    hide *;
    WrittenRow(s.db, found, newId, m, url);
    var db := WriteInFlight(s.db, found, newId, m.event, m.tenant, url);
    ApproachAt(c, s, pid, mid, url, m, found, now);
    WriteRun(c, s, begin, s, pid, url, mid, m, found, newId);
    DeliveredAt(c, s, begin + [WriteAttempt(pid, newId)], s.(db := db), pid, url, mid, m,
                ClaimOf(db, Row(found, newId)));
  }

  lemma DeliveredIn(s: State, t: State, m: Message, url: string, found: Option<DeliveryId>, newId: DeliveryId,
                    payload: Payload)
    requires IsFirst(s.db, m.event, url, found)
    requires newId !in s.db.deliveries && (found.Some? ==> found.value in s.db.deliveries)
    requires var db := WriteInFlight(s.db, found, newId, m.event, m.tenant, url);
             t.db == MarkSucceeded(db, Row(found, newId))
    requires t.accepted == s.accepted && m.event in s.accepted && m.tenant == s.accepted[m.event].tenant
             && m.kind == s.accepted[m.event].kind && payload == s.accepted[m.event].payload
    requires t.posts == s.posts + [Post(url, m.event, m.tenant, m.kind, payload, true)]
    ensures DeliveredTo(t, m.event, url)
  {
    assert Succeeded(t, Row(found, newId), m.event, url);
    assert t.posts[|s.posts|] == Post(url, m.event, m.tenant, m.kind, payload, true);
  }

  lemma Withs(s: State, pid: Pid, p: Proc)
    ensures var t := With(s, pid, p); t.db == s.db && t.posts == s.posts && t.accepted == s.accepted
  {
  }

  lemma WhatItMeets(s: State, m: Message, url: string)
    returns (pid: Pid, newId: DeliveryId, found: Option<DeliveryId>, now: int)
    requires NoneComplete(s, m.event, url)
    ensures Absent(s, pid) && newId !in s.db.deliveries && Due(s.db, m, url, found, now)
    ensures IsFirst(s.db, m.event, url, found) && (found.Some? ==> found.value in s.db.deliveries)
  {
    pid := FreshId(s.procs.Keys);
    newId := FreshId(s.db.deliveries.Keys);
    found, now := DueAt(s, m, url);
    FoundIsThere(s.db, m, url, found, now);
  }

  /** One handling of a message can deliver it. */
  lemma QueuedIsDeliverable(c: Config, s: State, mid: MessageId, m: Message, url: string) returns (more: seq<Action>)
    requires Inv(s) && mid in s.bodies && s.bodies[mid] == Parsed(m) && NoneComplete(s, m.event, url)
    ensures DeliveredTo(After(c, s, more), m.event, url)
  {
    hide *;
    var pid, newId, found, now := WhatItMeets(s, m, url);
    PayloadOf(s, mid, m);
    HandledAt(c, s, pid, mid, m, url, found, newId, now);
    more := HandlingOf(pid, mid, url, found, newId, now);
    var payload := if m.key.None? then m.payload else s.archive[m.key.value];
    var db := WriteInFlight(s.db, found, newId, m.event, m.tenant, url);
    var done := s.(posts := s.posts + [Post(url, m.event, m.tenant, m.kind, payload, true)],
                   db := MarkSucceeded(db, Row(found, newId)));
    Withs(done, pid, On(url, mid, m, Acknowledging));
    DeliveredIn(s, After(c, s, more), m, url, found, newId, payload);
  }

  function PublicationOf(pid: Pid, o: OutboxId, mid: MessageId): seq<Action> {
    [Pick(pid, o)] + [Send(pid, mid)] + [ConfirmSend(pid)] + [Publish(pid)]
  }

  /** The whole publication of a row. */
  lemma PublishedAt(c: Config, s: State, pid: Pid, o: OutboxId, mid: MessageId)
    requires Absent(s, pid) && mid !in s.bodies
    requires o in s.db.outbox && !s.db.outbox[o].published && s.db.outbox[o].event in s.db.events
    ensures var e := s.db.outbox[o].event; var m := MessageOf(e, s.db.events[e]);
            After(c, s, PublicationOf(pid, o, mid)) ==
            s.(bodies := s.bodies[mid := Parsed(m)], live := s.live + {mid}, db := MarkPublished(s.db, o).0)
  {
    var m := MessageOf(s.db.outbox[o].event, s.db.events[s.db.outbox[o].event]);
    var sent := s.(bodies := s.bodies[mid := Parsed(m)], live := s.live + {mid});
    assert Absent(sent, pid);
    assert PublicationOf(pid, o, mid) == [Pick(pid, o)] + [Send(pid, mid)] + [ConfirmSend(pid)] + [Publish(pid)];
    hide *;
    PickRun(c, s, pid, o);
    SendRun(c, s, [Pick(pid, o)], s, pid, o, m, mid);
    ConfirmRun(c, s, [Pick(pid, o)] + [Send(pid, mid)], sent, pid, o, m);
    PublishRun(c, s, [Pick(pid, o)] + [Send(pid, mid)] + [ConfirmSend(pid)], sent, pid, o, m);
  }

  lemma MarkKeepsDeliveries(s: State, o: OutboxId, mid: MessageId, m: Message)
    requires o in s.db.outbox && !s.db.outbox[o].published && s.db.outbox[o].event == m.event
    ensures var t := s.(bodies := s.bodies[mid := Parsed(m)], live := s.live + {mid}, db := MarkPublished(s.db, o).0);
            && t.db.deliveries == s.db.deliveries && mid in t.bodies && t.bodies[mid] == Parsed(m)
            && (forall url :: NoneComplete(s, m.event, url) ==> NoneComplete(t, m.event, url))
  {
  }

  /** A committed event whose row is unpublished gets its message into the queue. */
  lemma UnpublishedIsQueueable(c: Config, run: seq<Action>, e: EventId, url: string)
    returns (more: seq<Action>, mid: MessageId, m: Message)
    requires e in Run(c, run).db.events && Unpublished(Run(c, run), e) && NoneComplete(Run(c, run), e, url)
    ensures var t := Run(c, run + more);
            mid in t.bodies && t.bodies[mid] == Parsed(m) && m.event == e && NoneComplete(t, e, url)
  {
    var s := Run(c, run);
    var pid := FreshId(s.procs.Keys);
    mid := FreshId(s.bodies.Keys);
    var o :| o in s.db.outbox && s.db.outbox[o].event == e && !s.db.outbox[o].published;
    assert Absent(s, pid);
    m := MessageOf(e, s.db.events[e]);
    assert m.event == e;
    hide *;
    more := PublicationOf(pid, o, mid);
    PublishedAt(c, s, pid, o, mid);
    MarkKeepsDeliveries(s, o, mid, m);
    AfterRun(c, run, more);
  }

  /** Of an event that is not settled no delivery is complete. */
  lemma UnsettledIsIncomplete(s: State, e: EventId, url: string)
    requires Inv(s) && !Settled(s, e)
    ensures NoneComplete(s, e, url)
  {
    TerminalFacts(s);
    forall d | d in s.db.deliveries && s.db.deliveries[d].event == e
      ensures s.db.deliveries[d].status != SUCCEEDED && s.db.deliveries[d].status != DEAD_LETTERED
    {
      if s.db.deliveries[d].status == SUCCEEDED || s.db.deliveries[d].status == DEAD_LETTERED {
        TerminalSettled(s, d);
      }
    }
    hide Inv, Settled, DeliveriesOk, DeadLettersOk;
  }

  lemma QueuedMessage(s: State, e: EventId) returns (mid: MessageId, m: Message)
    requires Queued(s, e)
    ensures mid in s.bodies && s.bodies[mid] == Parsed(m) && m.event == e
  {
    mid :| mid in s.live && mid in s.bodies && s.bodies[mid].Parsed? && s.bodies[mid].message.event == e;
    m := s.bodies[mid].message;
  }

  /** An event that is not settled has its message in the queue, or can get it there. */
  lemma UnsettledIsQueueable(c: Config, run: seq<Action>, e: EventId, url: string)
    returns (first: seq<Action>, mid: MessageId, m: Message)
    requires e in Run(c, run).db.events && !Answered(Run(c, run), e) && !Buried(Run(c, run), e)
    ensures var t := Run(c, run + first);
            mid in t.bodies && t.bodies[mid] == Parsed(m) && m.event == e && NoneComplete(t, e, url)
  {
    assert !Settled(Run(c, run), e);
    hide *;
    RunKeeps(c, run);
    NothingIsLost(c, run, e);
    UnsettledIsIncomplete(Run(c, run), e, url);
    if Unpublished(Run(c, run), e) {
      first, mid, m := UnpublishedIsQueueable(c, run, e, url);
    } else {
      mid, m := QueuedMessage(Run(c, run), e);
      first := [];
      assert run + first == run;
    }
  }

  /** Over all runs: a committed event that has neither been answered with 2xx nor dead-lettered with its payload can
      still be delivered to any destination, as it was accepted. */
  lemma UnsettledIsDeliverable(c: Config, run: seq<Action>, e: EventId, url: string)
    requires e in Run(c, run).db.events && !Answered(Run(c, run), e) && !Buried(Run(c, run), e)
    ensures exists more :: DeliveredTo(Run(c, run + more), e, url)
  {
    hide *;
    var first, mid, m := UnsettledIsQueueable(c, run, e, url);
    RunKeeps(c, run + first);
    var more := QueuedIsDeliverable(c, Run(c, run + first), mid, m, url);
    AfterRun(c, run + first, more);
    assert run + first + more == run + (first + more);
    assert DeliveredTo(Run(c, run + (first + more)), e, url);
  }

  // ---- dead letters ----

  /** What the replay of the dead letter `d` reads. */
  function SourceOf(s: State, d: DeliveryId): Source
    requires d in s.db.deadLetters && d in s.db.deliveries && s.db.deadLetters[d].event in s.db.events
  {
    var letter := s.db.deadLetters[d];
    Source(letter.tenant, letter.key, letter.url, letter.event, s.db.events[letter.event].kind,
           s.db.deliveries[d].status, Replayed(s.db, d))
  }

  /** A dead-lettered delivery that has not been replayed, with its payload archived. */
  ghost predicate Replayable(s: State, d: DeliveryId) {
    && d in s.db.deliveries && s.db.deliveries[d].status == DEAD_LETTERED
    && d in s.db.deadLetters && s.db.deadLetters[d].event in s.db.events && s.db.deadLetters[d].event in s.accepted
    && s.db.deadLetters[d].key in s.archive
    && forall r | r in s.db.replays :: s.db.replays[r].source != d
  }

  /** A replay begins if and only if its tenant has the dead letter, of a DEAD_LETTERED delivery, for the destination
      asked for, and its payload is archived. */
  lemma BeginReplayIff(c: Config, s: State, pid: Pid, input: ReplayInput, url: string)
    requires pid !in s.procs
    ensures var d, t := input.source, Next(c, s, BeginReplay(pid, input, url));
            && t == s.(procs := t.procs)
            && (pid in t.procs <==>
                  && d in s.db.deadLetters && s.db.deadLetters[d].tenant == input.tenant
                  && s.db.deadLetters[d].event in s.db.events && d in s.db.deliveries
                  && s.db.deliveries[d].status == DEAD_LETTERED && s.db.deadLetters[d].url == url
                  && s.db.deadLetters[d].key in s.archive)
  {
    NextIs(c, s, BeginReplay(pid, input, url));
    hide Next, Replayed;
  }

  /** It commits, with fresh identifiers, if and only if neither its source nor its tenant's key has a replay. */
  lemma CommitReplayIff(c: Config, s: State, pid: Pid, e: EventId, o: OutboxId, r: ReplayId)
    requires pid in s.procs && s.procs[pid].Replayer? && s.procs[pid].source.event in s.accepted
    requires e !in s.drawn && o !in s.db.outbox && r !in s.db.replays
    ensures var p := s.procs[pid]; var t := Next(c, s, CommitReplay(pid, e, o, r));
            && (r in t.db.replays <==>
                  forall x | x in s.db.replays ::
                    s.db.replays[x].source != p.input.source &&
                    !(s.db.replays[x].tenant == p.input.tenant &&
                      s.db.replays[x].idempotencyKey == p.input.idempotencyKey))
            && (r !in t.db.replays ==> t == s)
            && (r in t.db.replays ==>
                  && t.db.replays == s.db.replays[r := ReplayRow(p.input.tenant, p.input.source, e,
                                                                 p.input.idempotencyKey)]
                  && t.db.events == s.db.events[e := EventRow(p.source.tenant, p.source.kind, JsonNull,
                                                              Some(p.source.key))]
                  && t.db.outbox == s.db.outbox[o := OutboxRow(e, false)])
  {
    NextIs(c, s, CommitReplay(pid, e, o, r));
    hide Next;
  }

  lemma BeginReplayAt(s: State, pid: Pid, d: DeliveryId, key: nat)
    requires Absent(s, pid) && Replayable(s, d)
    ensures var input := ReplayInput(s.db.deadLetters[d].tenant, d, key);
            BeginReplayStep(s, pid, input, s.db.deadLetters[d].url) == With(s, pid, Replayer(input, SourceOf(s, d)))
  {
  }

  /** The tables after the replay of `d`: its event is new, with the archive of the dead letter, and so is its row. */
  function AfterReplay(s: State, d: DeliveryId, input: ReplayInput, e: EventId, o: OutboxId, r: ReplayId): State
    requires d in s.db.deadLetters && d in s.db.deliveries && s.db.deadLetters[d].event in s.db.events
    requires s.db.deadLetters[d].event in s.accepted
  {
    s.(db := InsertReplay(s.db, input, SourceOf(s, d), e, o, r), drawn := s.drawn + {e},
       accepted := s.accepted[e := s.accepted[s.db.deadLetters[d].event]],
       replayOf := s.replayOf[e := s.db.deadLetters[d].event])
  }

  lemma CommitReplayAt(s: State, pid: Pid, d: DeliveryId, input: ReplayInput, e: EventId, o: OutboxId, r: ReplayId)
    requires Absent(s, pid) && Replayable(s, d) && input.source == d
    requires e !in s.drawn && o !in s.db.outbox && r !in s.db.replays
    requires forall x | x in s.db.replays :: s.db.replays[x].idempotencyKey != input.idempotencyKey
    ensures CommitReplayStep(With(s, pid, Replayer(input, SourceOf(s, d))), pid, e, o, r) ==
            AfterReplay(s, d, input, e, o, r)
  {
    Ended(AfterReplay(s, d, input, e, o, r), pid, Replayer(input, SourceOf(s, d)));
  }

  lemma ReplayRun(c: Config, s: State, pid: Pid, d: DeliveryId, input: ReplayInput, e: EventId, o: OutboxId,
                  r: ReplayId)
    requires Absent(s, pid) && Replayable(s, d)
    requires input == ReplayInput(s.db.deadLetters[d].tenant, d, input.idempotencyKey)
    requires e !in s.drawn && o !in s.db.outbox && r !in s.db.replays
    requires forall x | x in s.db.replays :: s.db.replays[x].idempotencyKey != input.idempotencyKey
    ensures After(c, s, [BeginReplay(pid, input, s.db.deadLetters[d].url)] + [CommitReplay(pid, e, o, r)]) ==
            AfterReplay(s, d, input, e, o, r)
  {
    BeginReplayAt(s, pid, d, input.idempotencyKey);
    CommitReplayAt(s, pid, d, input, e, o, r);
    var begin := BeginReplay(pid, input, s.db.deadLetters[d].url);
    hide *;
    AfterNone(c, s);
    AfterOne(c, s, [], begin);
    assert [] + [begin] == [begin];
    NextIs(c, s, begin);
    AfterOne(c, s, [begin], CommitReplay(pid, e, o, r));
    NextIs(c, After(c, s, [begin]), CommitReplay(pid, e, o, r));
  }

  lemma NewEventIsUnsettled(s: State, d: DeliveryId, input: ReplayInput, e: EventId, o: OutboxId, r: ReplayId)
    requires Inv(s) && Replayable(s, d) && e !in s.drawn
    ensures var t := AfterReplay(s, d, input, e, o, r);
            && e in t.db.events && !Answered(t, e) && !Buried(t, e)
            && e !in s.db.events && e in t.replayOf && t.replayOf[e] == s.db.deadLetters[d].event
  {
    var t := AfterReplay(s, d, input, e, o, r);
    assert e !in s.accepted;
    forall p | p in t.posts ensures p.event != e {
      assert PostOk(s, p);
    }
    forall x | x in t.db.deadLetters ensures t.db.deadLetters[x].event != e {
      assert s.db.deadLetters[x].event in s.accepted;
    }
  }

  /** Names for a replay that are not in use. */
  lemma ReplayNames(s: State) returns (pid: Pid, key: nat, e: EventId, o: OutboxId, r: ReplayId)
    ensures Absent(s, pid) && e !in s.drawn && o !in s.db.outbox && r !in s.db.replays
    ensures forall x | x in s.db.replays :: s.db.replays[x].idempotencyKey != key
  {
    pid := FreshId(s.procs.Keys);
    e := FreshId(s.drawn);
    o := FreshId(s.db.outbox.Keys);
    r := FreshId(s.db.replays.Keys);
    var keys := set x | x in s.db.replays :: s.db.replays[x].idempotencyKey;
    key := FreshId(keys);
    assert forall x | x in s.db.replays :: s.db.replays[x].idempotencyKey in keys;
  }

  lemma DeadLetteredIsReplayable(c: Config, run: seq<Action>, d: DeliveryId)
    requires d in Run(c, run).db.deliveries && Run(c, run).db.deliveries[d].status == DEAD_LETTERED
    requires forall r | r in Run(c, run).db.replays :: Run(c, run).db.replays[r].source != d
    ensures Replayable(Run(c, run), d)
  {
    RunKeeps(c, run);
    TerminalMeans(c, run, d);
    assert EventsOk(Run(c, run)) && DeliveriesOk(Run(c, run)) && DeadLettersOk(Run(c, run));
    hide Run, Inv;
  }

  lemma DeadLetterIsReplayed(c: Config, run: seq<Action>, d: DeliveryId) returns (first: seq<Action>, e: EventId)
    requires Replayable(Run(c, run), d)
    ensures var s, t := Run(c, run), Run(c, run + first);
            && d in s.db.deadLetters && e !in s.db.events
            && e in t.replayOf && t.replayOf[e] == s.db.deadLetters[d].event
            && e in t.db.events && !Answered(t, e) && !Buried(t, e)
  {
    var s := Run(c, run);
    assert d in s.db.deadLetters;
    hide *;
    RunKeeps(c, run);
    var pid, key, id, o, r := ReplayNames(s);
    var input := ReplayInput(s.db.deadLetters[d].tenant, d, key);
    ReplayRun(c, s, pid, d, input, id, o, r);
    NewEventIsUnsettled(s, d, input, id, o, r);
    first, e := [BeginReplay(pid, input, s.db.deadLetters[d].url)] + [CommitReplay(pid, id, o, r)], id;
    AfterRun(c, run, first);
  }

  /** Over all runs: a DEAD_LETTERED delivery that has not been replayed can be replayed, and the new event then be
      delivered to any destination. */
  lemma DeadLetterIsDeliverable(c: Config, run: seq<Action>, d: DeliveryId, url: string)
    requires d in Run(c, run).db.deliveries && Run(c, run).db.deliveries[d].status == DEAD_LETTERED
    requires forall r | r in Run(c, run).db.replays :: Run(c, run).db.replays[r].source != d
    ensures exists first, more, e ::
              && d in Run(c, run).db.deadLetters && e !in Run(c, run).db.events
              && e in Run(c, run + first).replayOf
              && Run(c, run + first).replayOf[e] == Run(c, run).db.deadLetters[d].event
              && DeliveredTo(Run(c, run + first + more), e, url)
  {
    hide *;
    DeadLetteredIsReplayable(c, run, d);
    var first, e := DeadLetterIsReplayed(c, run, d);
    UnsettledIsDeliverable(c, run + first, e, url);
    var more :| DeliveredTo(Run(c, run + first + more), e, url);
  }
}
