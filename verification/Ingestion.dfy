/** packages/api/src/services/events.ts: ingestEvent as the program runs it. A large payload is uploaded
    before the transaction that commits the event together with its outbox row. */
module Ingestion {
  import opened Store
  import opened Pipeline
  import opened Handling

  datatype Place = Postgres | S3

  datatype Ingested =
    | Stored(event: EventId, outbox: OutboxId, storedIn: Place)
    | Invalid
    | NoTenant
    | Limited
    | Failed

  /** What the checks answer, and how the upload and the commit go: each may take effect without the
      caller learning it. */
  datatype Answers = Answers(valid: bool, tenantExists: bool, admitted: bool,
                             uploaded: bool, uploadConfirmed: bool, committed: bool, commitConfirmed: bool)

  lemma BeginAt(c: Config, s: State, pid: Pid, id: EventId, content: Content, bytes: nat)
    requires Absent(s, pid) && id !in s.drawn
    ensures After(c, s, [BeginIngest(pid, id, content, bytes)]) ==
            With(s.(drawn := s.drawn + {id}), pid, Api(id, content, bytes > c.maxBytes, false))
  {
    AfterOne(c, s, [], BeginIngest(pid, id, content, bytes));
    assert [] + [BeginIngest(pid, id, content, bytes)] == [BeginIngest(pid, id, content, bytes)];
  }

  lemma UploadAt(s: State, pid: Pid, id: EventId, content: Content)
    ensures UploadStep(With(s, pid, Api(id, content, true, false)), pid) ==
            With(s.(archive := s.archive[EventKey(content.tenant, id) := content.payload]), pid,
                 Api(id, content, true, true))
  {
    Updated(s.(archive := s.archive[EventKey(content.tenant, id) := content.payload]), pid,
            Api(id, content, true, false), Api(id, content, true, true));
  }

  lemma CommitAt(s: State, pid: Pid, id: EventId, content: Content, large: bool, o: OutboxId)
    requires Absent(s, pid) && o !in s.db.outbox
    ensures CommitIngestStep(With(s, pid, Api(id, content, large, large)), pid, o) ==
            s.(db := CommitEvent(s.db, id, o, IngestedRow(id, content, large)), accepted := s.accepted[id := content])
  {
    Ended(s.(db := CommitEvent(s.db, id, o, IngestedRow(id, content, large)), accepted := s.accepted[id := content]),
          pid, Api(id, content, large, large));
  }

  /** A request uploads once, and only a large payload, under the key of its event. */
  lemma UploadIff(c: Config, s: State, pid: Pid)
    requires pid in s.procs && s.procs[pid].Api?
    ensures var p := s.procs[pid]; var t := Next(c, s, Upload(pid));
            && (t != s <==> p.large && !p.uploaded)
            && (t != s ==>
                  t == s.(archive := s.archive[EventKey(p.content.tenant, p.id) := p.content.payload],
                          procs := s.procs[pid := p.(uploaded := true)]))
  {
    NextIs(c, s, Upload(pid));
    hide Next;
    assert s.procs[pid := s.procs[pid].(uploaded := true)][pid].uploaded;
  }

  /** It commits if and only if a large payload has been uploaded, event and unpublished row together. */
  lemma CommitIff(c: Config, s: State, pid: Pid, o: OutboxId)
    requires pid in s.procs && s.procs[pid].Api? && o !in s.db.outbox
    ensures var p := s.procs[pid]; var t := Next(c, s, CommitIngest(pid, o));
            && (o in t.db.outbox <==> (p.large <==> p.uploaded))
            && (o !in t.db.outbox ==> t == s)
            && (o in t.db.outbox ==> p.id in t.db.events && t.db.outbox[o] == OutboxRow(p.id, false) && pid !in t.procs)
  {
    NextIs(c, s, CommitIngest(pid, o));
    hide Next, IngestedRow;
  }

  /** The upload, if there is one, and the commit are confirmed. */
  predicate Succeeds(a: Answers, large: bool) {
    (large ==> a.uploaded && a.uploadConfirmed) && a.committed && a.commitConfirmed
  }

  class Api {
    const c: Config
    var db: Database
    var archive: map<ArchiveKey, Payload>

    constructor (c: Config, s: State)
      ensures this.c == c && Over(s) == s
    {
      this.c := c;
      db, archive := s.db, s.archive;
    }

    function Over(rest: State): State
      reads this
    {
      rest.(db := db, archive := archive)
    }

    method UploadPayload(key: ArchiveKey, payload: Payload, a: Answers) returns (confirmed: bool)
      modifies this`archive
      ensures archive == if a.uploaded then old(archive)[key := payload] else old(archive)
      ensures confirmed <==> a.uploaded && a.uploadConfirmed
    {
      if a.uploaded {
        archive := archive[key := payload];
      }
      confirmed := a.uploaded && a.uploadConfirmed;
    }

    /** createEvent and createOutbox in one transaction. */
    method Commit(id: EventId, outboxId: OutboxId, row: EventRow, a: Answers) returns (confirmed: bool)
      modifies this`db
      ensures db == if a.committed then CommitEvent(old(db), id, outboxId, row) else old(db)
      ensures a.committed ==>
                db == old(db).(events := old(db).events[id := row],
                               outbox := old(db).outbox[outboxId := OutboxRow(id, false)])
      ensures confirmed <==> a.committed && a.commitConfirmed
    {
      if a.committed {
        var events := db.events[id := row];
        var outbox := db.outbox[outboxId := OutboxRow(id, false)];
        db := db.(events := events, outbox := outbox);
      }
      confirmed := a.committed && a.commitConfirmed;
    }

    /** The rows and the upload are those of a run of the pipeline's machine; the event is committed
        with its outbox row or not at all, and when it was committed by claim-check its archive holds
        the payload. Only a committed event is answered with its identifiers. */
    method IngestEvent(ghost pid: Pid, id: EventId, newOutbox: OutboxId, content: Content, bytes: nat, a: Answers,
                       ghost rest: State)
      returns (result: Ingested, ghost run: seq<Action>)
      requires Absent(rest, pid) && id !in rest.drawn && newOutbox !in db.outbox
      modifies this
      ensures result.Invalid? <==> !a.valid
      ensures result.NoTenant? <==> a.valid && !a.tenantExists
      ensures result.Limited? <==> a.valid && a.tenantExists && !a.admitted
      ensures result.Stored? <==>
                a.valid && a.tenantExists && a.admitted &&
                (bytes > c.maxBytes ==> a.uploaded && a.uploadConfirmed) && a.committed && a.commitConfirmed
      ensures result.Stored? || result.Failed? ==>
                (db != old(db) <==> a.committed && (bytes > c.maxBytes ==> a.uploaded && a.uploadConfirmed))
      ensures result.Invalid? || result.NoTenant? || result.Limited? ==>
                db == old(db) && archive == old(archive) && run == []
      ensures result.Stored? || result.Failed? ==>
                After(c, old(Over(rest)), run) ==
                Over(rest.(drawn := rest.drawn + {id},
                           accepted := if db == old(db) then rest.accepted else rest.accepted[id := content]))
      ensures db == old(db) ||
              db == old(db).(events := old(db).events[id :=
                               EventRow(content.tenant, content.kind,
                                        if bytes > c.maxBytes then JsonNull else content.payload,
                                        if bytes > c.maxBytes then Some(EventKey(content.tenant, id)) else None)],
                             outbox := old(db).outbox[newOutbox := OutboxRow(id, false)])
      ensures result.Stored? ==> id in db.events && db != old(db) && result.event == id && result.outbox == newOutbox
      ensures result.Stored? ==> (result.storedIn.S3? <==> bytes > c.maxBytes)
      ensures db != old(db) && bytes > c.maxBytes ==>
                EventKey(content.tenant, id) in archive && archive[EventKey(content.tenant, id)] == content.payload
    {
      run := [];
      if !a.valid {
        return Invalid, run;
      }
      if !a.tenantExists {
        return NoTenant, run;
      }
      if !a.admitted {
        return Limited, run;
      }
      result, run := Accept(pid, id, newOutbox, content, bytes, a, rest);
    }

    method Accept(ghost pid: Pid, id: EventId, newOutbox: OutboxId, content: Content, bytes: nat, a: Answers,
                  ghost rest: State)
      returns (result: Ingested, ghost run: seq<Action>)
      requires Absent(rest, pid) && id !in rest.drawn && newOutbox !in db.outbox
      modifies this
      ensures result.Stored? || result.Failed?
      ensures result.Stored? <==> Succeeds(a, bytes > c.maxBytes)
      ensures db != old(db) <==> a.committed && (bytes > c.maxBytes ==> a.uploaded && a.uploadConfirmed)
      ensures After(c, old(Over(rest)), run) ==
              Over(rest.(drawn := rest.drawn + {id},
                         accepted := if db == old(db) then rest.accepted else rest.accepted[id := content]))
      ensures db == old(db) ||
              db == old(db).(events := old(db).events[id :=
                               EventRow(content.tenant, content.kind,
                                        if bytes > c.maxBytes then JsonNull else content.payload,
                                        if bytes > c.maxBytes then Some(EventKey(content.tenant, id)) else None)],
                             outbox := old(db).outbox[newOutbox := OutboxRow(id, false)])
      ensures result.Stored? ==> id in db.events && db != old(db) && result.event == id && result.outbox == newOutbox
      ensures result.Stored? ==> (result.storedIn.S3? <==> bytes > c.maxBytes)
      ensures db != old(db) && bytes > c.maxBytes ==>
                EventKey(content.tenant, id) in archive && archive[EventKey(content.tenant, id)] == content.payload
    {
      hide After, With, CrashStep, UploadStep, CommitIngestStep, BeginIngestStep, IngestedRow;
      ghost var start := Over(rest);
      ghost var drawn := rest.(drawn := rest.drawn + {id});
      BeginAt(c, start, pid, id, content, bytes);
      run := [BeginIngest(pid, id, content, bytes)];
      var large := bytes > c.maxBytes;
      var inlinePayload, payloadS3Key, storedIn := content.payload, None, Postgres;
      if large {
        payloadS3Key := Some(EventKey(content.tenant, id));
        UploadRun(c, start, run, Over(drawn), pid, id, content);
        if a.uploaded { run := run + [Upload(pid)]; }
        var confirmed := UploadPayload(EventKey(content.tenant, id), content.payload, a);
        if !confirmed {
          GiveUp(c, start, run, Over(drawn), pid, Proc.Api(id, content, true, a.uploaded));
          run := run + [Crash(pid)];
          return Failed, run;
        }
        inlinePayload, storedIn := JsonNull, S3;
      }
      CommitRun(c, start, run, Over(drawn), pid, id, content, large, newOutbox);
      GiveUp(c, start, run, Over(drawn), pid, Proc.Api(id, content, large, large));
      assert EventRow(content.tenant, content.kind, inlinePayload, payloadS3Key) == IngestedRow(id, content, large) by {
        RowIs(id, content, large);
      }
      var ok := Commit(id, newOutbox, EventRow(content.tenant, content.kind, inlinePayload, payloadS3Key), a);
      run := run + [if a.committed then CommitIngest(pid, newOutbox) else Crash(pid)];
      assert a.committed ==> db.outbox != old(db).outbox by {
        assert a.committed ==> newOutbox in db.outbox;
      }
      result := if ok then Stored(id, newOutbox, storedIn) else Failed;
    }
  }

  lemma RowIs(id: EventId, content: Content, large: bool)
    ensures IngestedRow(id, content, large) ==
            EventRow(content.tenant, content.kind, if large then JsonNull else content.payload,
                     if large then Some(EventKey(content.tenant, id)) else None)
  {
  }

  lemma UploadRun(c: Config, start: State, before: seq<Action>, s: State, pid: Pid, id: EventId, content: Content)
    requires After(c, start, before) == With(s, pid, Proc.Api(id, content, true, false))
    ensures After(c, start, before + [Upload(pid)]) ==
            With(s.(archive := s.archive[EventKey(content.tenant, id) := content.payload]), pid,
                 Proc.Api(id, content, true, true))
  {
    AfterOne(c, start, before, Upload(pid));
    UploadAt(s, pid, id, content);
    hide After, With, UploadStep;
  }

  lemma CommitRun(c: Config, start: State, before: seq<Action>, s: State, pid: Pid, id: EventId, content: Content,
                  large: bool, o: OutboxId)
    requires Absent(s, pid) && o !in s.db.outbox
    requires After(c, start, before) == With(s, pid, Proc.Api(id, content, large, large))
    ensures After(c, start, before + [CommitIngest(pid, o)]) ==
            s.(db := CommitEvent(s.db, id, o, IngestedRow(id, content, large)), accepted := s.accepted[id := content])
  {
    AfterOne(c, start, before, CommitIngest(pid, o));
    CommitAt(s, pid, id, content, large, o);
    hide After, With, CommitIngestStep;
  }

  /** A request that fails leaves what it did so far. */
  lemma GiveUp(c: Config, start: State, before: seq<Action>, s: State, pid: Pid, p: Proc)
    requires Absent(s, pid) && p.Api? && After(c, start, before) == With(s, pid, p)
    ensures After(c, start, before + [Crash(pid)]) == s
  {
    AfterOne(c, start, before, Crash(pid));
    CrashAt(s, pid, p);
    hide After, With, CrashStep;
  }
}
