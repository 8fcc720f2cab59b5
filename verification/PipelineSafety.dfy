/** What every reachable state of the pipeline satisfies: nothing accepted is lost, and what is
    posted is what was accepted. */
module PipelineSafety {
  import opened Store
  import opened Pipeline
  import opened PipelineInvariant
  import opened PipelineFrames

  lemma LocalStep(s: State, t: State, pid: Pid)
    requires Inv(s)
    requires t == s.(procs := t.procs, interrupted := t.interrupted)
    requires forall q | q in t.procs && q != pid :: q in s.procs && t.procs[q] == s.procs[q]
    requires pid in t.procs ==> !t.procs[pid].Api? && ProcOk(s, t.procs[pid])
    ensures Inv(t)
  {
    hide EventsOk, ArchiveOk, OutboxOk, QueueOk, DeliveriesOk, DeadLettersOk;
    LocalEffect(s, t);
    if pid in t.procs { ProcLater(s, t, t.procs[pid]); }
    Preserved(s, t, pid);
  }

  lemma BeginIngestLater(c: Config, s: State, pid: Pid, id: EventId, content: Content, bytes: nat)
    requires Data(s)
    ensures var t := BeginIngestStep(c, s, pid, id, content, bytes); Later(s, t) && Data(t)
  {
    hide Data, Later;
    LocalEffect(s, BeginIngestStep(c, s, pid, id, content, bytes));
  }

  lemma BeginIngestKeeps(c: Config, s: State, pid: Pid, id: EventId, content: Content, bytes: nat)
    requires Inv(s) && BeginIngestStep(c, s, pid, id, content, bytes) != s
    ensures Inv(BeginIngestStep(c, s, pid, id, content, bytes))
  {
    var t := BeginIngestStep(c, s, pid, id, content, bytes);
    RequestsKeepTheirIds(s);
    FreshFacts(s, id);
    hide Data, Later, ProcOk;
    BeginIngestLater(c, s, pid, id, content, bytes);
    NewRequestOk(t, id, content, bytes > c.maxBytes);
    Preserved(s, t, pid);
  }

  lemma FreshFacts(s: State, id: EventId)
    requires Inv(s) && id !in s.drawn
    ensures id !in s.accepted && forall k | k in s.archive :: k.event != id
  {
    hide EventsOk, ArchiveOk;
    UndrawnFacts(s, id);
  }

  lemma NewRequestOk(t: State, id: EventId, content: Content, large: bool)
    requires id in t.drawn && id !in t.accepted && forall k | k in t.archive :: k.event != id
    ensures ProcOk(t, Api(id, content, large, false))
  {
  }

  lemma RequestsKeepTheirIds(s: State)
    requires Inv(s)
    ensures forall q | q in s.procs && s.procs[q].Api? :: s.procs[q].id in s.drawn && s.procs[q].id !in s.accepted
  {
    hide Data, WorkerOk;
    forall q | q in s.procs && s.procs[q].Api? ensures s.procs[q].id in s.drawn && s.procs[q].id !in s.accepted {
      assert ProcOk(s, s.procs[q]);
    }
  }

  lemma UploadKeeps(s: State, pid: Pid)
    requires Inv(s) && UploadStep(s, pid) != s
    ensures Inv(UploadStep(s, pid))
  {
    hide EventsOk, OutboxOk, QueueOk, DeliveriesOk, DeadLettersOk, Later;
    var t := UploadStep(s, pid);
    var p := s.procs[pid];
    assert ProcOk(s, p);
    ArchiveEffect(s, t, EventKey(p.content.tenant, p.id), p.content.payload);
    Preserved(s, t, pid);
  }

  lemma CommitIngestKeeps(s: State, pid: Pid, o: OutboxId)
    requires Inv(s) && CommitIngestStep(s, pid, o) != s
    ensures Inv(CommitIngestStep(s, pid, o))
  {
    hide OutboxOk, QueueOk, DeliveriesOk, DeadLettersOk, Later;
    var t := CommitIngestStep(s, pid, o);
    var p := s.procs[pid];
    assert ProcOk(s, p);
    hide WorkerOk;
    EventEffect(s, t, p.id, p.content, o, IngestedRow(p.id, p.content, p.large));
    Preserved(s, t, pid);
  }

  lemma PickKeeps(s: State, pid: Pid, row: OutboxId)
    requires Inv(s) && PickStep(s, pid, row) != s
    ensures Inv(PickStep(s, pid, row))
  {
    hide ArchiveOk, QueueOk, DeliveriesOk, DeadLettersOk, Later;
    var t := PickStep(s, pid, row);
    assert MessageOk(s, t.procs[pid].message);
    LocalStep(s, t, pid);
  }

  lemma SendKeeps(s: State, pid: Pid, mid: MessageId)
    requires Inv(s) && SendStep(s, pid, mid) != s
    ensures Inv(SendStep(s, pid, mid))
  {
    hide EventsOk, ArchiveOk, OutboxOk, QueueOk, DeliveriesOk, DeadLettersOk, Later;
    var t := SendStep(s, pid, mid);
    assert ProcOk(s, s.procs[pid]);
    SentEffect(s, t, mid, Parsed(s.procs[pid].message));
    ProcLater(s, t, s.procs[pid]);
    Preserved(s, t, pid);
  }

  lemma ConfirmSendKeeps(s: State, pid: Pid)
    requires Inv(s) && ConfirmSendStep(s, pid) != s
    ensures Inv(ConfirmSendStep(s, pid))
  {
    hide EventsOk, ArchiveOk, OutboxOk, QueueOk, DeliveriesOk, DeadLettersOk, Later;
    assert ProcOk(s, s.procs[pid]);
    LocalStep(s, ConfirmSendStep(s, pid), pid);
  }

  /** The row is marked only after its message was carried. */
  lemma PublishKeeps(s: State, pid: Pid)
    requires Inv(s) && PublishStep(s, pid) != s
    ensures Inv(PublishStep(s, pid))
  {
    hide EventsOk, ArchiveOk, OutboxOk, QueueOk, DeliveriesOk, DeadLettersOk, Later;
    var t := PublishStep(s, pid);
    var p := s.procs[pid];
    assert ProcOk(s, p);
    if s.db.outbox[p.row].published {
      LocalStep(s, t, pid);
    } else {
      MarkedEffect(s, t, p.row);
      Preserved(s, t, pid);
    }
  }

  /** A worker moved on in its code without writing anything. */
  lemma PhaseKeeps(s: State, pid: Pid, phase: Phase)
    requires Inv(s) && AtPhase(s, pid)
    requires s.procs[pid].body.Parsed? && s.procs[pid].body.message.event in s.accepted ==>
               PhaseOk(s, s.procs[pid].body.message, phase)
    requires s.procs[pid].body.Poison? ==> phase.Acknowledging? || phase.Deferring?
    ensures Inv(InPhase(s, pid, s.procs[pid], phase))
  {
    hide EventsOk, ArchiveOk, OutboxOk, QueueOk, DeliveriesOk, DeadLettersOk, Later;
    assert ProcOk(s, s.procs[pid]);
    LocalStep(s, InPhase(s, pid, s.procs[pid], phase), pid);
  }

  lemma WorkerFacts(s: State, pid: Pid)
    requires Inv(s) && AtPhase(s, pid)
    ensures WorkerOk(s, s.procs[pid])
  {
    hide Data, WorkerOk;
    assert ProcOk(s, s.procs[pid]);
  }

  lemma ReceiveKeeps(s: State, pid: Pid, mid: MessageId, url: string)
    requires Inv(s) && ReceiveStep(s, pid, mid, url) != s
    ensures Inv(ReceiveStep(s, pid, mid, url))
  {
    hide EventsOk, ArchiveOk, OutboxOk, DeliveriesOk, DeadLettersOk, Later;
    LocalStep(s, ReceiveStep(s, pid, mid, url), pid);
  }

  lemma AdmitKeeps(s: State, pid: Pid, allowed: bool)
    requires Inv(s) && AdmitStep(s, pid, allowed) != s
    ensures Inv(AdmitStep(s, pid, allowed))
  {
    hide Inv;
    WorkerFacts(s, pid);
    PhaseKeeps(s, pid, AdmitStep(s, pid, allowed).procs[pid].phase);
  }

  /** A terminal delivery is only acknowledged because its event is settled. */
  lemma LookupKeeps(s: State, pid: Pid, found: Option<DeliveryId>, now: int)
    requires Inv(s) && LookupStep(s, pid, found, now) != s
    ensures Inv(LookupStep(s, pid, found, now))
  {
    hide Inv, DeliveriesOk, DeadLettersOk;
    TerminalFacts(s);
    WorkerFacts(s, pid);
    var phase := LookupStep(s, pid, found, now).procs[pid].phase;
    if phase.Acknowledging? {
      TerminalSettled(s, found.value);
    }
    PhaseKeeps(s, pid, phase);
  }

  lemma TerminalFacts(s: State)
    requires Inv(s)
    ensures DeliveriesOk(s) && DeadLettersOk(s)
  {
  }

  lemma TerminalSettled(s: State, d: DeliveryId)
    requires DeliveriesOk(s) && DeadLettersOk(s) && d in s.db.deliveries
    requires s.db.deliveries[d].status == SUCCEEDED || s.db.deliveries[d].status == DEAD_LETTERED
    ensures Settled(s, s.db.deliveries[d].event)
  {
    if s.db.deliveries[d].status == DEAD_LETTERED {
      assert BuriedBy(s, s.db.deliveries[d].event, d);
    }
  }

  lemma ReadExistingKeeps(s: State, pid: Pid, found: Option<DeliveryId>)
    requires Inv(s) && ReadExistingStep(s, pid, found) != s
    ensures Inv(ReadExistingStep(s, pid, found))
  {
    hide Inv;
    WorkerFacts(s, pid);
    PhaseKeeps(s, pid, Writing(found));
  }

  lemma PoisonKeeps(s: State, mid: MessageId)
    requires Inv(s) && PoisonStep(s, mid) != s
    ensures Inv(PoisonStep(s, mid))
  {
    hide EventsOk, ArchiveOk, OutboxOk, QueueOk, DeliveriesOk, DeadLettersOk, Later, WorkerOk;
    var t := PoisonStep(s, mid);
    SentEffect(s, t, mid, Poison);
    forall q | q in t.procs ensures ProcOk(t, t.procs[q]) {
      ProcLater(s, t, s.procs[q]);
    }
  }

  lemma WriteAttemptKeeps(s: State, pid: Pid, newId: DeliveryId)
    requires Inv(s) && WriteAttemptStep(s, pid, newId) != s
    ensures Inv(WriteAttemptStep(s, pid, newId))
  {
    hide EventsOk, ArchiveOk, OutboxOk, QueueOk, DeadLettersOk, Later;
    var t := WriteAttemptStep(s, pid, newId);
    var w := s.procs[pid];
    WorkerFacts(s, pid);
    var d := if w.phase.existing.Some? then w.phase.existing.value else newId;
    DeliveryEffect(s, t, d, t.db.deliveries[d]);
    ProcLater(s, t, w);
    Preserved(s, t, pid);
  }

  lemma PrepareKeeps(s: State, pid: Pid, ok: bool, error: string)
    requires Inv(s) && PrepareStep(s, pid, ok, error) != s
    ensures Inv(PrepareStep(s, pid, ok, error))
  {
    hide Inv;
    WorkerFacts(s, pid);
    PhaseKeeps(s, pid, PrepareStep(s, pid, ok, error).procs[pid].phase);
  }

  lemma CallKeeps(s: State, pid: Pid, answered: bool, seen: bool, error: string)
    requires Inv(s) && CallStep(s, pid, answered, seen, error) != s
    ensures Inv(CallStep(s, pid, answered, seen, error))
  {
    hide EventsOk, ArchiveOk, OutboxOk, QueueOk, DeliveriesOk, DeadLettersOk, Later;
    var t := CallStep(s, pid, answered, seen, error);
    var w := s.procs[pid];
    WorkerFacts(s, pid);
    var m := w.body.message;
    PostedEffect(s, t, Post(w.url, m.event, m.tenant, m.kind, w.phase.payload, answered));
    ProcLater(s, t, w);
    Preserved(s, t, pid);
  }

  lemma DecideKeeps(c: Config, s: State, pid: Pid)
    requires Inv(s) && DecideStep(c, s, pid) != s
    ensures Inv(DecideStep(c, s, pid))
  {
    hide Inv;
    WorkerFacts(s, pid);
    PhaseKeeps(s, pid, DecideStep(c, s, pid).procs[pid].phase);
  }

  lemma SucceedKeeps(s: State, pid: Pid)
    requires Inv(s) && SucceedStep(s, pid) != s
    ensures Inv(SucceedStep(s, pid))
  {
    hide EventsOk, ArchiveOk, OutboxOk, QueueOk, DeliveriesOk, DeadLettersOk, Later;
    var t := SucceedStep(s, pid);
    var w := s.procs[pid];
    WorkerFacts(s, pid);
    RecordedRowOk(s, w);
    var d := w.phase.claim.delivery;
    DeliveryEffect(s, t, d, t.db.deliveries[d]);
    ProcLater(s, t, w);
    Preserved(s, t, pid);
  }

  lemma RetryKeeps(s: State, pid: Pid, next: int)
    requires Inv(s) && RetryStep(s, pid, next) != s
    ensures Inv(RetryStep(s, pid, next))
  {
    hide EventsOk, ArchiveOk, OutboxOk, QueueOk, DeliveriesOk, DeadLettersOk, Later;
    var t := RetryStep(s, pid, next);
    var w := s.procs[pid];
    WorkerFacts(s, pid);
    RecordedRowOk(s, w);
    var d := w.phase.claim.delivery;
    DeliveryEffect(s, t, d, t.db.deliveries[d]);
    ProcLater(s, t, w);
    Preserved(s, t, pid);
  }

  /** The row a worker holds is of an accepted event of the same tenant. */
  lemma RecordedRowOk(s: State, w: Proc)
    requires Inv(s) && w.Worker? && Holds(w) && w.phase.claim.delivery in s.db.deliveries
    ensures s.db.deliveries[w.phase.claim.delivery].event in s.accepted
    ensures s.db.deliveries[w.phase.claim.delivery].tenant ==
            s.accepted[s.db.deliveries[w.phase.claim.delivery].event].tenant
  {
    hide EventsOk, ArchiveOk, OutboxOk, QueueOk, DeadLettersOk, ProcOk, Answered;
  }

  lemma ArchiveStepKeeps(s: State, pid: Pid)
    requires Inv(s) && ArchiveStep(s, pid) != s
    ensures Inv(ArchiveStep(s, pid))
  {
    hide Inv;
    var w := s.procs[pid];
    WorkerFacts(s, pid);
    if w.body.message.key.Some? {
      PhaseKeeps(s, pid, ArchiveStep(s, pid).procs[pid].phase);
    } else {
      ArchiveInlineKeeps(s, pid);
    }
  }

  lemma ArchiveInlineKeeps(s: State, pid: Pid)
    requires Inv(s) && ArchiveStep(s, pid) != s && s.procs[pid].body.message.key.None?
    ensures Inv(ArchiveStep(s, pid))
  {
    hide OutboxOk, QueueOk, DeliveriesOk, DeadLettersOk, Later;
    var t := ArchiveStep(s, pid);
    var w := s.procs[pid];
    WorkerFacts(s, pid);
    var m := w.body.message;
    ArchiveEffect(s, t, DeadLetterKey(m.event), m.payload);
    ProcLater(s, t, w);
    Preserved(s, t, pid);
  }

  lemma BuryKeeps(s: State, pid: Pid)
    requires Inv(s) && BuryStep(s, pid) != s
    ensures Inv(BuryStep(s, pid))
  {
    hide EventsOk, ArchiveOk, OutboxOk, QueueOk, DeliveriesOk, Later;
    var t := BuryStep(s, pid);
    var w := s.procs[pid];
    WorkerFacts(s, pid);
    var d := w.phase.claim.delivery;
    BuriedEffect(s, t, d, t.db.deadLetters[d]);
    ProcLater(s, t, w);
    Preserved(s, t, pid);
  }

  lemma MarkDeadKeeps(s: State, pid: Pid)
    requires Inv(s) && MarkDeadStep(s, pid) != s
    ensures Inv(MarkDeadStep(s, pid))
  {
    hide EventsOk, ArchiveOk, OutboxOk, QueueOk, Later;
    var t := MarkDeadStep(s, pid);
    var w := s.procs[pid];
    WorkerFacts(s, pid);
    var d := w.phase.claim.delivery;
    DeliveryEffect(s, t, d, t.db.deliveries[d]);
    TerminalSettled(t, d);
    ProcLater(s, t, w);
    Preserved(s, t, pid);
  }

  /** No acknowledgement can lose an event: only a settled one leaves the queue. */
  lemma DeleteKeeps(s: State, pid: Pid)
    requires Inv(s) && DeleteStep(s, pid) != s
    ensures Inv(DeleteStep(s, pid))
  {
    hide EventsOk, ArchiveOk, OutboxOk, QueueOk, DeliveriesOk, DeadLettersOk, Later;
    WorkerFacts(s, pid);
    DeletedEffect(s, DeleteStep(s, pid), s.procs[pid].mid);
    Preserved(s, DeleteStep(s, pid), pid);
  }

  lemma BeginReplayKeeps(s: State, pid: Pid, input: ReplayInput, url: string)
    requires Inv(s) && BeginReplayStep(s, pid, input, url) != s
    ensures Inv(BeginReplayStep(s, pid, input, url))
  {
    hide ArchiveOk, OutboxOk, QueueOk, Later;
    var t := BeginReplayStep(s, pid, input, url);
    var e := t.procs[pid].source.event;
    assert MessageOk(s, MessageOf(e, s.db.events[e]));
    LocalStep(s, t, pid);
  }

  lemma UndrawnFacts(s: State, e: EventId)
    requires EventsOk(s) && ArchiveOk(s) && e !in s.drawn
    ensures e !in s.accepted && forall k | k in s.archive :: k.event != e
  {
  }

  lemma CommitReplayKeeps(s: State, pid: Pid, newEvent: EventId, newOutbox: OutboxId, newReplay: ReplayId)
    requires Inv(s) && CommitReplayStep(s, pid, newEvent, newOutbox, newReplay) != s
    ensures Inv(CommitReplayStep(s, pid, newEvent, newOutbox, newReplay))
  {
    hide EventsOk, ArchiveOk, OutboxOk, QueueOk, DeliveriesOk, DeadLettersOk, Later, WorkerOk;
    var t := CommitReplayStep(s, pid, newEvent, newOutbox, newReplay);
    var p := s.procs[pid];
    assert ProcOk(s, p);
    UndrawnFacts(s, newEvent);
    var row := EventRow(p.source.tenant, p.source.kind, JsonNull, Some(p.source.key));
    EventEffect(s, t, newEvent, s.accepted[p.source.event], newOutbox, row);
    Preserved(s, t, pid);
  }

  lemma NextKeeps(c: Config, s: State, a: Action)
    requires Inv(s)
    ensures Inv(Next(c, s, a))
  {
    hide *;
    NextIs(c, s, a);
    if Next(c, s, a) != s {
      match a {
        case BeginIngest(pid, id, content, bytes) => BeginIngestKeeps(c, s, pid, id, content, bytes);
        case Upload(pid) => UploadKeeps(s, pid);
        case CommitIngest(pid, o) => CommitIngestKeeps(s, pid, o);
        case Pick(pid, row) => PickKeeps(s, pid, row);
        case Send(pid, mid) => SendKeeps(s, pid, mid);
        case ConfirmSend(pid) => ConfirmSendKeeps(s, pid);
        case Publish(pid) => PublishKeeps(s, pid);
        case ReceivePoison(mid) => PoisonKeeps(s, mid);
        case Receive(pid, mid, url) => ReceiveKeeps(s, pid, mid, url);
        case Admit(pid, allowed) => AdmitKeeps(s, pid, allowed);
        case Lookup(pid, found, now) => LookupKeeps(s, pid, found, now);
        case ReadExisting(pid, found) => ReadExistingKeeps(s, pid, found);
        case WriteAttempt(pid, newId) => WriteAttemptKeeps(s, pid, newId);
        case Prepare(pid, ok, error) => PrepareKeeps(s, pid, ok, error);
        case Call(pid, answered, seen, error) => CallKeeps(s, pid, answered, seen, error);
        case Decide(pid) => DecideKeeps(c, s, pid);
        case Succeed(pid) => SucceedKeeps(s, pid);
        case Retry(pid, next) => RetryKeeps(s, pid, next);
        case Archive(pid) => ArchiveStepKeeps(s, pid);
        case Bury(pid) => BuryKeeps(s, pid);
        case MarkDead(pid) => MarkDeadKeeps(s, pid);
        case Delete(pid) => DeleteKeeps(s, pid);
        case BeginReplay(pid, input, url) => BeginReplayKeeps(s, pid, input, url);
        case CommitReplay(pid, e, o, x) => CommitReplayKeeps(s, pid, e, o, x);
        case Crash(pid) => CrashKeeps(s, pid);
      }
    }
  }

  lemma CrashIsLocal(s: State, pid: Pid)
    ensures var t := CrashStep(s, pid);
            && t == s.(procs := t.procs, interrupted := t.interrupted) && pid !in t.procs
            && forall q | q in t.procs && q != pid :: q in s.procs && t.procs[q] == s.procs[q]
  {
    hide Holds, Interruptions;
  }

  lemma CrashKeeps(s: State, pid: Pid)
    requires Inv(s)
    ensures Inv(CrashStep(s, pid))
  {
    hide *;
    CrashIsLocal(s, pid);
    LocalStep(s, CrashStep(s, pid), pid);
  }

  lemma {:induction false} RunKeeps(c: Config, run: seq<Action>)
    ensures Inv(Run(c, run))
  {
    if run != [] {
      RunKeeps(c, run[..|run| - 1]);
      NextKeeps(c, Run(c, run[..|run| - 1]), run[|run| - 1]);
    }
  }

  // ---- the guarantees ----

  /** In every reachable state every committed event still has an unpublished outbox row, a message
      in the queue, a past 2xx answer, or a dead letter whose archive holds its payload. */
  lemma NothingIsLost(c: Config, run: seq<Action>, e: EventId)
    requires e in Run(c, run).db.events
    ensures var s := Run(c, run);
            Unpublished(s, e) || Queued(s, e) || Answered(s, e) || Buried(s, e)
  {
    var s := Run(c, run);
    RunKeeps(c, run);
    hide ArchiveOk, QueueOk, DeliveriesOk, DeadLettersOk, ProcOk;
    var o :| o in s.db.outbox && s.db.outbox[o].event == e;
    if s.db.outbox[o].published {
      assert Carried(s, e);
    } else {
      assert Unpublished(s, e);
    }
  }

  /** In every reachable state a SUCCEEDED delivery's destination has answered 2xx, and a DEAD_LETTERED
      one has its dead letter, with the payload of its event archived. */
  lemma TerminalMeans(c: Config, run: seq<Action>, d: DeliveryId)
    requires d in Run(c, run).db.deliveries
    ensures var s := Run(c, run); var row := s.db.deliveries[d];
            && (row.status == SUCCEEDED ==> Answered(s, row.event))
            && (row.status == DEAD_LETTERED ==> d in s.db.deadLetters && BuriedBy(s, row.event, d))
  {
    RunKeeps(c, run);
    hide Run, EventsOk, ArchiveOk, OutboxOk, QueueOk, ProcOk, Answered;
  }

  /** Whatever a worker posted is the tenant, type and payload accepted for that event, inline or
      by claim-check; and every archive key holds the payload of the event it names. */
  lemma PostedIsAccepted(c: Config, run: seq<Action>)
    ensures var s := Run(c, run);
            forall p | p in s.posts :: p.event in s.accepted
                && Content(p.tenant, p.kind, p.payload) == s.accepted[p.event]
    ensures var s := Run(c, run);
            forall k | k in s.archive && k.event in s.accepted :: s.archive[k] == s.accepted[k.event].payload
  {
    RunKeeps(c, run);
    hide EventsOk, OutboxOk, QueueOk, DeliveriesOk, DeadLettersOk, ProcOk;
  }

  /** `chain` starts at some event, and each next event replays a dead letter of the one before. */
  ghost predicate ReplayChain(s: State, chain: seq<EventId>) {
    |chain| > 0 && forall i | 0 < i < |chain| :: chain[i] in s.replayOf && s.replayOf[chain[i]] == chain[i - 1]
  }

  /** Through any chain of replays the destination is sent the content accepted for the first event. */
  lemma ReplayedIsAccepted(c: Config, run: seq<Action>, chain: seq<EventId>, p: Post)
    requires ReplayChain(Run(c, run), chain)
    requires p in Run(c, run).posts && p.event == chain[|chain| - 1]
    ensures chain[0] in Run(c, run).accepted
    ensures Run(c, run).accepted[chain[0]] == Content(p.tenant, p.kind, p.payload)
  {
    PostedIsAccepted(c, run);
    RunKeeps(c, run);
    ChainContent(Run(c, run), chain);
  }

  lemma {:induction false} ChainContent(s: State, chain: seq<EventId>)
    requires ReplaysOk(s) && ReplayChain(s, chain) && chain[|chain| - 1] in s.accepted
    ensures chain[0] in s.accepted && s.accepted[chain[0]] == s.accepted[chain[|chain| - 1]]
  {
    if |chain| > 1 {
      var last := chain[|chain| - 1];
      assert last in s.replayOf;
      ChainContent(s, chain[..|chain| - 1]);
    }
  }

  ghost predicate Requested(run: seq<Action>, e: EventId, content: Content) {
    exists pid, bytes :: BeginIngest(pid, e, content, bytes) in run
  }

  /** The content of every event that replays no other, and of every request under way, is what a
      request brought. */
  ghost predicate AllRequested(run: seq<Action>, s: State) {
    && (forall e | e in s.accepted && e !in s.replayOf :: Requested(run, e, s.accepted[e]))
    && (forall pid | pid in s.procs && s.procs[pid].Api? :: Requested(run, s.procs[pid].id, s.procs[pid].content))
  }

  /** The content recorded for an event is the one some ingestion request brought, unless the event
      replays another one. */
  lemma {:induction false} AcceptedIsRequested(c: Config, run: seq<Action>)
    ensures AllRequested(run, Run(c, run))
  {
    if run != [] {
      var before := run[..|run| - 1];
      AcceptedIsRequested(c, before);
      var s, a := Run(c, before), run[|run| - 1];
      RequestStep(c, s, a);
      forall e, content | Requested(before, e, content) ensures Requested(run, e, content) {
        var pid, bytes :| BeginIngest(pid, e, content, bytes) in before;
        assert BeginIngest(pid, e, content, bytes) in run;
      }
      if a.BeginIngest? {
        assert BeginIngest(a.pid, a.id, a.content, a.bytes) in run;
        assert Requested(run, a.id, a.content);
      }
      hide Next;
      Extend(before, run, s, Next(c, s, a), a);
    }
  }

  lemma Extend(before: seq<Action>, run: seq<Action>, s: State, t: State, a: Action)
    requires AcceptedStep(s, t) && RequestsStep(s, t, a)
    requires AllRequested(before, s)
    requires forall e, content | Requested(before, e, content) :: Requested(run, e, content)
    requires a.BeginIngest? ==> Requested(run, a.id, a.content)
    ensures AllRequested(run, t)
  {
  }

  /** A newly accepted event is a replay, or what a request had brought. */
  ghost predicate AcceptedStep(s: State, t: State) {
    forall e | e in t.accepted && e !in t.replayOf ::
      || (e in s.accepted && e !in s.replayOf && t.accepted[e] == s.accepted[e])
      || (exists q :: q in s.procs && s.procs[q].Api? && s.procs[q].id == e && s.procs[q].content == t.accepted[e])
  }

  ghost predicate RequestsStep(s: State, t: State, a: Action) {
    forall q | q in t.procs && t.procs[q].Api? ::
      || (q in s.procs && s.procs[q].Api? && s.procs[q].id == t.procs[q].id && s.procs[q].content == t.procs[q].content)
      || (a.BeginIngest? && a.id == t.procs[q].id && a.content == t.procs[q].content)
  }

  lemma CommitIngestRequest(s: State, pid: Pid, o: OutboxId, a: Action)
    ensures AcceptedStep(s, CommitIngestStep(s, pid, o)) && RequestsStep(s, CommitIngestStep(s, pid, o), a)
  {
    hide CommitEvent, IngestedRow;
    var t := CommitIngestStep(s, pid, o);
    if t != s {
      var p := s.procs[pid];
      assert p.Api? && t.accepted == s.accepted[p.id := p.content];
    }
  }

  lemma BeginIngestRequest(c: Config, s: State, pid: Pid, id: EventId, content: Content, bytes: nat)
    ensures var t := BeginIngestStep(c, s, pid, id, content, bytes);
            AcceptedStep(s, t) && RequestsStep(s, t, BeginIngest(pid, id, content, bytes))
  {
  }

  lemma UploadRequest(s: State, pid: Pid, a: Action)
    ensures AcceptedStep(s, UploadStep(s, pid)) && RequestsStep(s, UploadStep(s, pid), a)
  {
  }

  lemma CommitReplayRequest(s: State, pid: Pid, e: EventId, o: OutboxId, r: ReplayId, a: Action)
    ensures var t := CommitReplayStep(s, pid, e, o, r); AcceptedStep(s, t) && RequestsStep(s, t, a)
  {
    hide InsertReplay, UniqueViolation;
  }

  lemma NothingAccepted(s: State, t: State, a: Action)
    requires AcceptsNothing(s, t)
    ensures AcceptedStep(s, t) && RequestsStep(s, t, a)
  {
  }

  lemma FrameAccepts(s: State, t: State)
    ensures Frame(s, t) ==> AcceptsNothing(s, t)
  {
  }

  lemma OtherStep(c: Config, s: State, a: Action)
    requires !Accepts(a)
    ensures AcceptsNothing(s, Next(c, s, a))
  {
    hide *;
    if WritesDelivery(a) {
      WriteFrame(c, s, a);
    } else {
      StepFrame(c, s, a);
      FrameAccepts(s, Next(c, s, a));
    }
  }

  lemma RequestStep(c: Config, s: State, a: Action)
    ensures AcceptedStep(s, Next(c, s, a)) && RequestsStep(s, Next(c, s, a), a)
  {
    assert Accepts(a) <==> a.BeginIngest? || a.Upload? || a.CommitIngest? || a.CommitReplay?;
    hide *;
    NextIs(c, s, a);
    match a {
      case BeginIngest(pid, id, content, bytes) => BeginIngestRequest(c, s, pid, id, content, bytes);
      case Upload(pid) => UploadRequest(s, pid, a);
      case CommitIngest(pid, o) => CommitIngestRequest(s, pid, o, a);
      case CommitReplay(pid, e, o, x) => CommitReplayRequest(s, pid, e, o, x, a);
      case _ =>
        OtherStep(c, s, a);
        NothingAccepted(s, Next(c, s, a), a);
    }
  }
}
