/** What single steps of the pipeline leave alone: only ingestion and replay accept events, and only
    four steps of a worker write delivery rows. */
module PipelineFrames {
  import opened Store
  import opened Pipeline

  /** Nothing is accepted, and the API requests stay as they are. */
  ghost predicate AcceptsNothing(s: State, t: State) {
    && t.accepted == s.accepted && t.replayOf == s.replayOf
    && forall q | q in t.procs && t.procs[q].Api? :: q in s.procs && t.procs[q] == s.procs[q]
  }

  ghost predicate Frame(s: State, t: State) {
    AcceptsNothing(s, t) && t.db.deliveries == s.db.deliveries
  }

  /** No process takes a delivery or a row, and no dead letter is written. */
  ghost predicate NoneTaken(s: State, t: State) {
    && t.db.deadLetters == s.db.deadLetters
    && (forall d | d in s.db.deliveries :: d in t.db.deliveries && t.db.deliveries[d].url == s.db.deliveries[d].url)
    && (forall q | q in t.procs && (Holds(t.procs[q]) || ReadRow(t.procs[q])) ::
          q in s.procs && s.procs[q].Worker? && t.procs[q].url == s.procs[q].url &&
          (ReadRow(t.procs[q]) ==> s.procs[q] == t.procs[q]) &&
          (Holds(t.procs[q]) ==> Holds(s.procs[q]) && s.procs[q].phase.claim == t.procs[q].phase.claim &&
                                 (t.procs[q].phase.Marking? ==> s.procs[q] == t.procs[q])))
  }

  predicate ReadRow(p: Proc) {
    p.Worker? && p.phase.Writing? && p.phase.existing.Some?
  }

  /** A worker that goes on holds what it held. */
  predicate GoesOn(p: Proc, q: Proc) {
    || (!Holds(q) && !ReadRow(q))
    || (Holds(q) && Holds(p) && q.url == p.url && q.phase.claim == p.phase.claim && !q.phase.Marking?)
  }

  lemma OneGoesOn(s: State, t: State, pid: Pid)
    requires t.db.deadLetters == s.db.deadLetters
    requires forall d | d in s.db.deliveries ::
               d in t.db.deliveries && t.db.deliveries[d].url == s.db.deliveries[d].url
    requires || t == s || t.procs == s.procs - {pid}
             || (pid in t.procs && t.procs == s.procs[pid := t.procs[pid]] &&
                 if pid in s.procs then GoesOn(s.procs[pid], t.procs[pid])
                 else !Holds(t.procs[pid]) && !ReadRow(t.procs[pid]))
    ensures NoneTaken(s, t)
  {
  }

  lemma PickFrame(s: State, pid: Pid, row: OutboxId)
    ensures Frame(s, PickStep(s, pid, row))
    ensures PickStep(s, pid, row).db.outbox == s.db.outbox && PickStep(s, pid, row).posts == s.posts
    ensures NoneTaken(s, PickStep(s, pid, row))
  {
    hide NoneTaken;
    OneGoesOn(s, PickStep(s, pid, row), pid);
  }

  lemma SendFrame(s: State, pid: Pid, mid: MessageId)
    ensures Frame(s, SendStep(s, pid, mid))
    ensures SendStep(s, pid, mid).db.outbox == s.db.outbox && SendStep(s, pid, mid).posts == s.posts
    ensures NoneTaken(s, SendStep(s, pid, mid))
  {
    hide NoneTaken;
    OneGoesOn(s, SendStep(s, pid, mid), pid);
  }

  lemma ConfirmSendFrame(s: State, pid: Pid)
    ensures Frame(s, ConfirmSendStep(s, pid))
    ensures ConfirmSendStep(s, pid).db.outbox == s.db.outbox && ConfirmSendStep(s, pid).posts == s.posts
    ensures NoneTaken(s, ConfirmSendStep(s, pid))
  {
    hide NoneTaken;
    OneGoesOn(s, ConfirmSendStep(s, pid), pid);
  }

  lemma PublishFrame(s: State, pid: Pid)
    ensures Frame(s, PublishStep(s, pid))
    ensures PublishStep(s, pid).posts == s.posts
    ensures NoneTaken(s, PublishStep(s, pid))
  {
    hide NoneTaken;
    OneGoesOn(s, PublishStep(s, pid), pid);
  }

  lemma PoisonFrame(s: State, mid: MessageId)
    ensures Frame(s, PoisonStep(s, mid))
    ensures PoisonStep(s, mid).db.outbox == s.db.outbox && PoisonStep(s, mid).posts == s.posts
    ensures NoneTaken(s, PoisonStep(s, mid))
  {
  }

  lemma ReceiveFrame(s: State, pid: Pid, mid: MessageId, url: string)
    ensures Frame(s, ReceiveStep(s, pid, mid, url))
    ensures ReceiveStep(s, pid, mid, url).db.outbox == s.db.outbox && ReceiveStep(s, pid, mid, url).posts == s.posts
    ensures NoneTaken(s, ReceiveStep(s, pid, mid, url))
  {
    hide NoneTaken;
    OneGoesOn(s, ReceiveStep(s, pid, mid, url), pid);
  }

  lemma AdmitFrame(s: State, pid: Pid, allowed: bool)
    ensures Frame(s, AdmitStep(s, pid, allowed))
    ensures AdmitStep(s, pid, allowed).db.outbox == s.db.outbox && AdmitStep(s, pid, allowed).posts == s.posts
    ensures NoneTaken(s, AdmitStep(s, pid, allowed))
  {
    hide NoneTaken;
    OneGoesOn(s, AdmitStep(s, pid, allowed), pid);
  }

  lemma LookupFrame(s: State, pid: Pid, found: Option<DeliveryId>, now: int)
    ensures Frame(s, LookupStep(s, pid, found, now))
    ensures LookupStep(s, pid, found, now).db.outbox == s.db.outbox && LookupStep(s, pid, found, now).posts == s.posts
    ensures NoneTaken(s, LookupStep(s, pid, found, now))
  {
    hide NoneTaken;
    OneGoesOn(s, LookupStep(s, pid, found, now), pid);
    hide LookupPhase;
  }

  lemma ReadExistingFrame(s: State, pid: Pid, found: Option<DeliveryId>)
    ensures Frame(s, ReadExistingStep(s, pid, found))
    ensures ReadExistingStep(s, pid, found).db.outbox == s.db.outbox && ReadExistingStep(s, pid, found).posts == s.posts
  {
  }

  lemma WriteAttemptFrame(s: State, pid: Pid, newId: DeliveryId)
    ensures AcceptsNothing(s, WriteAttemptStep(s, pid, newId))
    ensures WriteAttemptStep(s, pid, newId).db.outbox == s.db.outbox && WriteAttemptStep(s, pid, newId).posts == s.posts
  {
    hide BeginAttempt, FirstAttempt;
  }

  lemma PrepareFrame(s: State, pid: Pid, ok: bool, error: string)
    ensures Frame(s, PrepareStep(s, pid, ok, error))
    ensures PrepareStep(s, pid, ok, error).db.outbox == s.db.outbox && PrepareStep(s, pid, ok, error).posts == s.posts
    ensures NoneTaken(s, PrepareStep(s, pid, ok, error))
  {
    hide NoneTaken;
    OneGoesOn(s, PrepareStep(s, pid, ok, error), pid);
    hide PreparePhase;
  }

  lemma CallFrame(s: State, pid: Pid, answered: bool, seen: bool, error: string)
    ensures Frame(s, CallStep(s, pid, answered, seen, error))
    ensures CallStep(s, pid, answered, seen, error).db.outbox == s.db.outbox
    ensures NoneTaken(s, CallStep(s, pid, answered, seen, error))
  {
    hide NoneTaken;
    OneGoesOn(s, CallStep(s, pid, answered, seen, error), pid);
  }

  lemma DecideFrame(c: Config, s: State, pid: Pid)
    ensures Frame(s, DecideStep(c, s, pid))
    ensures DecideStep(c, s, pid).db.outbox == s.db.outbox && DecideStep(c, s, pid).posts == s.posts
    ensures NoneTaken(s, DecideStep(c, s, pid))
  {
    hide NoneTaken;
    OneGoesOn(s, DecideStep(c, s, pid), pid);
    hide DecidePhase;
  }

  lemma SucceedFrame(s: State, pid: Pid)
    ensures AcceptsNothing(s, SucceedStep(s, pid))
    ensures SucceedStep(s, pid).db.outbox == s.db.outbox && SucceedStep(s, pid).posts == s.posts
    ensures NoneTaken(s, SucceedStep(s, pid))
  {
    hide NoneTaken;
    OneGoesOn(s, SucceedStep(s, pid), pid);
  }

  lemma RetryFrame(s: State, pid: Pid, next: int)
    ensures AcceptsNothing(s, RetryStep(s, pid, next))
    ensures RetryStep(s, pid, next).db.outbox == s.db.outbox && RetryStep(s, pid, next).posts == s.posts
    ensures NoneTaken(s, RetryStep(s, pid, next))
  {
    hide NoneTaken;
    OneGoesOn(s, RetryStep(s, pid, next), pid);
  }

  lemma ArchiveFrame(s: State, pid: Pid)
    ensures Frame(s, ArchiveStep(s, pid))
    ensures ArchiveStep(s, pid).db.outbox == s.db.outbox && ArchiveStep(s, pid).posts == s.posts
    ensures NoneTaken(s, ArchiveStep(s, pid))
  {
    hide NoneTaken;
    OneGoesOn(s, ArchiveStep(s, pid), pid);
  }

  lemma BuryFrame(s: State, pid: Pid)
    ensures Frame(s, BuryStep(s, pid))
    ensures BuryStep(s, pid).db.outbox == s.db.outbox && BuryStep(s, pid).posts == s.posts
  {
    hide Clip;
  }

  lemma MarkDeadFrame(s: State, pid: Pid)
    ensures AcceptsNothing(s, MarkDeadStep(s, pid))
    ensures MarkDeadStep(s, pid).db.outbox == s.db.outbox && MarkDeadStep(s, pid).posts == s.posts
    ensures NoneTaken(s, MarkDeadStep(s, pid))
  {
    hide NoneTaken;
    OneGoesOn(s, MarkDeadStep(s, pid), pid);
  }

  lemma DeleteFrame(s: State, pid: Pid)
    ensures Frame(s, DeleteStep(s, pid))
    ensures DeleteStep(s, pid).db.outbox == s.db.outbox && DeleteStep(s, pid).posts == s.posts
    ensures NoneTaken(s, DeleteStep(s, pid))
  {
    hide NoneTaken;
    OneGoesOn(s, DeleteStep(s, pid), pid);
  }

  lemma BeginReplayFrame(s: State, pid: Pid, input: ReplayInput, url: string)
    ensures Frame(s, BeginReplayStep(s, pid, input, url))
    ensures BeginReplayStep(s, pid, input, url).db.outbox == s.db.outbox
            && BeginReplayStep(s, pid, input, url).posts == s.posts
    ensures NoneTaken(s, BeginReplayStep(s, pid, input, url))
  {
    hide NoneTaken;
    OneGoesOn(s, BeginReplayStep(s, pid, input, url), pid);
    hide FindSource;
  }

  lemma CrashFrame(s: State, pid: Pid)
    ensures Frame(s, CrashStep(s, pid))
    ensures CrashStep(s, pid).db.outbox == s.db.outbox && CrashStep(s, pid).posts == s.posts
    ensures NoneTaken(s, CrashStep(s, pid))
  {
    hide Holds, ReadRow, GoesOn;
    hide NoneTaken;
    OneGoesOn(s, CrashStep(s, pid), pid);
    hide Interruptions;
  }

  predicate Accepts(a: Action) {
    a.BeginIngest? || a.Upload? || a.CommitIngest? || a.CommitReplay?
  }

  /** The steps that read a delivery's row to write it, take it, or write its dead letter. */
  predicate Takes(a: Action) {
    a.ReadExisting? || a.WriteAttempt? || a.Bury?
  }

  predicate WritesDelivery(a: Action) {
    a.WriteAttempt? || a.Succeed? || a.Retry? || a.MarkDead?
  }

  lemma WriteFrame(c: Config, s: State, a: Action)
    requires WritesDelivery(a)
    ensures AcceptsNothing(s, Next(c, s, a)) && Next(c, s, a).db.outbox == s.db.outbox && Next(c, s, a).posts == s.posts
    ensures !a.WriteAttempt? ==> NoneTaken(s, Next(c, s, a))
  {
    assert a.WriteAttempt? || a.Succeed? || a.Retry? || a.MarkDead?;
    hide *;
    NextIs(c, s, a);
    match a {
      case WriteAttempt(pid, newId) => WriteAttemptFrame(s, pid, newId);
      case Succeed(pid) => SucceedFrame(s, pid);
      case Retry(pid, next) => RetryFrame(s, pid, next);
      case MarkDead(pid) => MarkDeadFrame(s, pid);
    }
  }

  /** Every other step. */
  lemma StepFrame(c: Config, s: State, a: Action)
    requires !Accepts(a) && !WritesDelivery(a)
    ensures Frame(s, Next(c, s, a))
    ensures !Takes(a) ==> NoneTaken(s, Next(c, s, a))
    ensures !a.Publish? ==> Next(c, s, a).db.outbox == s.db.outbox
    ensures !a.Call? ==> Next(c, s, a).posts == s.posts
  {
    assert Takes(a) <==> a.ReadExisting? || a.WriteAttempt? || a.Bury?;
    assert Accepts(a) <==> a.BeginIngest? || a.Upload? || a.CommitIngest? || a.CommitReplay?;
    assert WritesDelivery(a) <==> a.WriteAttempt? || a.Succeed? || a.Retry? || a.MarkDead?;
    hide *;
    NextIs(c, s, a);
    match a {
      case Pick(pid, row) => PickFrame(s, pid, row);
      case Send(pid, mid) => SendFrame(s, pid, mid);
      case ConfirmSend(pid) => ConfirmSendFrame(s, pid);
      case Publish(pid) => PublishFrame(s, pid);
      case ReceivePoison(mid) => PoisonFrame(s, mid);
      case Receive(pid, mid, url) => ReceiveFrame(s, pid, mid, url);
      case Admit(pid, allowed) => AdmitFrame(s, pid, allowed);
      case Lookup(pid, found, now) => LookupFrame(s, pid, found, now);
      case ReadExisting(pid, found) => ReadExistingFrame(s, pid, found);
      case Prepare(pid, ok, error) => PrepareFrame(s, pid, ok, error);
      case Call(pid, answered, seen, error) => CallFrame(s, pid, answered, seen, error);
      case Decide(pid) => DecideFrame(c, s, pid);
      case Archive(pid) => ArchiveFrame(s, pid);
      case Bury(pid) => BuryFrame(s, pid);
      case Delete(pid) => DeleteFrame(s, pid);
      case BeginReplay(pid, input, url) => BeginReplayFrame(s, pid, input, url);
      case Crash(pid) => CrashFrame(s, pid);
      case _ =>
    }
  }

  lemma UploadFrame(s: State, pid: Pid)
    ensures UploadStep(s, pid).posts == s.posts
    ensures UploadStep(s, pid).db.outbox == s.db.outbox
    ensures UploadStep(s, pid).db.deliveries == s.db.deliveries
    ensures NoneTaken(s, UploadStep(s, pid))
  {
  }

  lemma CommitIngestFrame(s: State, pid: Pid, o: OutboxId)
    ensures CommitIngestStep(s, pid, o).posts == s.posts
    ensures CommitIngestStep(s, pid, o).db.deliveries == s.db.deliveries
    ensures NoneTaken(s, CommitIngestStep(s, pid, o))
  {
    hide IngestedRow;
  }

  lemma CommitReplayFrame(s: State, pid: Pid, e: EventId, o: OutboxId, r: ReplayId)
    ensures CommitReplayStep(s, pid, e, o, r).posts == s.posts
    ensures CommitReplayStep(s, pid, e, o, r).db.deliveries == s.db.deliveries
    ensures NoneTaken(s, CommitReplayStep(s, pid, e, o, r))
  {
    hide UniqueViolation;
  }

  lemma BeginIngestFrame(c: Config, s: State, pid: Pid, id: EventId, content: Content, bytes: nat)
    ensures BeginIngestStep(c, s, pid, id, content, bytes).posts == s.posts
    ensures BeginIngestStep(c, s, pid, id, content, bytes).db.outbox == s.db.outbox
    ensures BeginIngestStep(c, s, pid, id, content, bytes).db.deliveries == s.db.deliveries
    ensures NoneTaken(s, BeginIngestStep(c, s, pid, id, content, bytes))
  {
  }

  lemma FrameKeeps(s: State, t: State)
    ensures Frame(s, t) ==> t.db.deliveries == s.db.deliveries
  {
  }

  /** Only a worker that begins an attempt or records its outcome writes a delivery. */
  lemma OnlyHandlersWrite(c: Config, s: State, a: Action)
    requires !WritesDelivery(a)
    ensures Next(c, s, a).db.deliveries == s.db.deliveries
  {
    assert Accepts(a) <==> a.BeginIngest? || a.Upload? || a.CommitIngest? || a.CommitReplay?;
    hide *;
    NextIs(c, s, a);
    match a {
      case BeginIngest(pid, id, content, bytes) => BeginIngestFrame(c, s, pid, id, content, bytes);
      case Upload(pid) => UploadFrame(s, pid);
      case CommitIngest(pid, o) => CommitIngestFrame(s, pid, o);
      case CommitReplay(pid, e, o, r) => CommitReplayFrame(s, pid, e, o, r);
      case _ =>
        StepFrame(c, s, a);
        FrameKeeps(s, Next(c, s, a));
    }
  }

  lemma OnlyThreeTake(c: Config, s: State, a: Action)
    requires !Takes(a)
    ensures NoneTaken(s, Next(c, s, a))
  {
    assert Takes(a) <==> a.ReadExisting? || a.WriteAttempt? || a.Bury?;
    assert Accepts(a) <==> a.BeginIngest? || a.Upload? || a.CommitIngest? || a.CommitReplay?;
    hide *;
    NextIs(c, s, a);
    if a.BeginIngest? {
      BeginIngestFrame(c, s, a.pid, a.id, a.content, a.bytes);
    } else if a.Upload? {
      UploadFrame(s, a.pid);
    } else if a.CommitIngest? {
      CommitIngestFrame(s, a.pid, a.newOutbox);
    } else if a.CommitReplay? {
      CommitReplayFrame(s, a.pid, a.newEvent, a.newOutbox, a.newReplay);
    } else if WritesDelivery(a) {
      WriteFrame(c, s, a);
    } else {
      StepFrame(c, s, a);
    }
  }

  /** Only ingestion, replay and publishing write the outbox. */
  lemma OutboxStays(c: Config, s: State, a: Action)
    requires !a.Publish? && !a.CommitIngest? && !a.CommitReplay?
    ensures Next(c, s, a).db.outbox == s.db.outbox
  {
    assert Accepts(a) <==> a.BeginIngest? || a.Upload? || a.CommitIngest? || a.CommitReplay?;
    hide *;
    NextIs(c, s, a);
    if a.BeginIngest? {
      BeginIngestFrame(c, s, a.pid, a.id, a.content, a.bytes);
    } else if a.Upload? {
      UploadFrame(s, a.pid);
    } else if WritesDelivery(a) {
      WriteFrame(c, s, a);
    } else {
      StepFrame(c, s, a);
    }
  }

  /** Only the webhook call posts. */
  lemma PostsStay(c: Config, s: State, a: Action)
    requires !a.Call?
    ensures Next(c, s, a).posts == s.posts
  {
    assert Accepts(a) <==> a.BeginIngest? || a.Upload? || a.CommitIngest? || a.CommitReplay?;
    hide *;
    NextIs(c, s, a);
    if a.BeginIngest? {
      BeginIngestFrame(c, s, a.pid, a.id, a.content, a.bytes);
    } else if a.Upload? {
      UploadFrame(s, a.pid);
    } else if a.CommitIngest? {
      CommitIngestFrame(s, a.pid, a.newOutbox);
    } else if a.CommitReplay? {
      CommitReplayFrame(s, a.pid, a.newEvent, a.newOutbox, a.newReplay);
    } else if WritesDelivery(a) {
      WriteFrame(c, s, a);
    } else {
      StepFrame(c, s, a);
    }
  }
}
