/** When an outbox row counts as published: exactly after publishOne has updated it, which it does only once the
    queue has confirmed the message. */
module Publishing {
  import opened Store
  import opened Pipeline
  import opened PipelineInvariant
  import opened PipelineSafety
  import opened PipelineFrames
  import opened Handling

  predicate Published(s: State, o: OutboxId) {
    o in s.db.outbox && s.db.outbox[o].published
  }

  /** The step is the update of row `o` by a publisher whose message the queue has confirmed. */
  predicate Marks(s: State, a: Action, o: OutboxId) {
    a.Publish? && a.pid in s.procs && s.procs[a.pid].Publisher? && s.procs[a.pid].confirmed &&
    s.procs[a.pid].row == o
  }

  /** The update writes that one column of that one row, and ends the publisher. */
  lemma PublishWrites(c: Config, s: State, pid: Pid)
    requires pid in s.procs && s.procs[pid].Publisher? && s.procs[pid].confirmed && s.procs[pid].row in s.db.outbox
    ensures var o := s.procs[pid].row; var t := Next(c, s, Publish(pid));
            && t == s.(db := t.db, procs := s.procs - {pid})
            && t.db == s.db.(outbox := s.db.outbox[o := OutboxRow(s.db.outbox[o].event, true)])
            && (MarkPublished(s.db, o).1 == 1 <==> !s.db.outbox[o].published) && MarkPublished(s.db, o).1 <= 1
  {
    NextIs(c, s, Publish(pid));
    hide Next;
    assert s.db.outbox[s.procs[pid].row].published ==>
             s.db.outbox == s.db.outbox[s.procs[pid].row := s.db.outbox[s.procs[pid].row]];
  }

  lemma NewRowsAreUnpublished(c: Config, s: State, a: Action, o: OutboxId)
    requires a.CommitIngest? || a.CommitReplay?
    ensures Published(Next(c, s, a), o) <==> Published(s, o)
    ensures o in s.db.outbox ==> o in Next(c, s, a).db.outbox && Next(c, s, a).db.outbox[o] == s.db.outbox[o]
  {
    NextIs(c, s, a);
    hide Next, UniqueViolation, IngestedRow;
  }

  lemma PublisherRow(s: State, pid: Pid)
    requires Inv(s) && pid in s.procs && s.procs[pid].Publisher?
    ensures s.procs[pid].row in s.db.outbox
  {
    assert ProcOk(s, s.procs[pid]);
    hide Data, IdsDistinct;
  }

  lemma StepPublishes(c: Config, s: State, a: Action, o: OutboxId)
    requires Inv(s)
    ensures Published(Next(c, s, a), o) <==> Published(s, o) || Marks(s, a, o)
  {
    if a.CommitIngest? || a.CommitReplay? {
      NewRowsAreUnpublished(c, s, a, o);
    } else if a.Publish? {
      NextIs(c, s, a);
      if a.pid in s.procs && s.procs[a.pid].Publisher? && s.procs[a.pid].confirmed {
        PublisherRow(s, a.pid);
        PublishWrites(c, s, a.pid);
        hide PublishStep;
      }
    } else {
      OutboxStays(c, s, a);
    }
    hide Next, Inv;
  }

  /** Step `n` of the run marks the row. */
  ghost predicate MarksAt(c: Config, run: seq<Action>, o: OutboxId, n: nat) {
    n < |run| && Marks(Run(c, run[..n]), run[n], o)
  }

  ghost predicate WasMarked(c: Config, run: seq<Action>, o: OutboxId) {
    exists n: nat :: MarksAt(c, run, o, n)
  }

  lemma MarkedToo(c: Config, run: seq<Action>, o: OutboxId)
    requires run != []
    ensures var n := |run| - 1; WasMarked(c, run, o) <==> WasMarked(c, run[..n], o) || MarksAt(c, run, o, n)
  {
    var before := run[..|run| - 1];
    forall n: nat | n < |run| - 1 ensures MarksAt(c, before, o, n) <==> MarksAt(c, run, o, n) {
      assert before[..n] == run[..n];
    }
    assert forall n: nat | MarksAt(c, run, o, n) :: n < |run|;
    assert forall n: nat | MarksAt(c, before, o, n) :: n < |run| - 1;
    hide MarksAt;
  }

  /** Over all runs a row is published if and only if a publisher with a confirmed send has marked it. */
  lemma {:induction false} PublishedIffMarked(c: Config, run: seq<Action>, o: OutboxId)
    ensures Published(Run(c, run), o) <==> WasMarked(c, run, o)
  {
    if run == [] {
      assert !Published(Run(c, run), o);
    } else {
      var before := run[..|run| - 1];
      PublishedIffMarked(c, before, o);
      RunKeeps(c, before);
      StepPublishes(c, Run(c, before), run[|run| - 1], o);
      MarkedToo(c, run, o);
      assert Run(c, run) == Next(c, Run(c, before), run[|run| - 1]);
    }
    hide Run, Next, WasMarked, Inv, Published;
  }

  // ---- publishOne ----

  /** A publisher takes a row if and only if it is unpublished, with the message of its event: the payload inline or by
      claim-check, never both. */
  lemma PickIff(c: Config, s: State, pid: Pid, o: OutboxId)
    requires pid !in s.procs
    ensures var t := Next(c, s, Pick(pid, o));
            && (t != s <==> o in s.db.outbox && !s.db.outbox[o].published && s.db.outbox[o].event in s.db.events)
            && (t != s ==>
                  var e := s.db.outbox[o].event; var row := s.db.events[e];
                  && t == s.(procs := t.procs) && t.procs.Keys == s.procs.Keys + {pid}
                  && t.procs[pid] == Publisher(o, Message(e, row.tenant, row.kind,
                                                          if row.key.Some? then JsonNull else row.payload, row.key),
                                               false, false))
  {
    NextIs(c, s, Pick(pid, o));
    hide Next;
    assert pid in s.procs.Keys <==> pid in s.procs;
  }

  /** It can send until it knows that the queue has the message. */
  lemma SendIff(c: Config, s: State, pid: Pid, mid: MessageId)
    requires pid in s.procs && s.procs[pid].Publisher? && mid !in s.bodies
    ensures var p := s.procs[pid]; var t := Next(c, s, Send(pid, mid));
            && (mid in t.bodies <==> !p.confirmed) && (mid in t.live && mid !in s.live ==> !p.confirmed)
            && (!p.confirmed ==>
                  && t == s.(bodies := s.bodies[mid := Parsed(p.message)], live := s.live + {mid}, procs := t.procs)
                  && t.procs == s.procs[pid := p.(sent := true)])
  {
    NextIs(c, s, Send(pid, mid));
    hide Next;
  }

  /** It knows that the queue has the message only of one that it sent. */
  lemma ConfirmIff(c: Config, s: State, pid: Pid)
    requires pid in s.procs && s.procs[pid].Publisher?
    ensures var p := s.procs[pid]; var t := Next(c, s, ConfirmSend(pid));
            && t == s.(procs := t.procs) && pid in t.procs && t.procs[pid].Publisher?
            && (t.procs[pid].confirmed <==> p.confirmed || p.sent)
  {
    NextIs(c, s, ConfirmSend(pid));
    hide Next;
  }

  lemma PickAt(s: State, pid: Pid, o: OutboxId)
    requires Absent(s, pid) && o in s.db.outbox && !s.db.outbox[o].published && s.db.outbox[o].event in s.db.events
    ensures PickStep(s, pid, o) ==
            With(s, pid, Publisher(o, MessageOf(s.db.outbox[o].event, s.db.events[s.db.outbox[o].event]), false, false))
  {
  }

  lemma SendAt(s: State, pid: Pid, o: OutboxId, m: Message, mid: MessageId)
    requires mid !in s.bodies
    ensures SendStep(With(s, pid, Publisher(o, m, false, false)), pid, mid) ==
            With(s.(bodies := s.bodies[mid := Parsed(m)], live := s.live + {mid}), pid, Publisher(o, m, true, false))
  {
    Updated(s.(bodies := s.bodies[mid := Parsed(m)], live := s.live + {mid}), pid,
            Publisher(o, m, false, false), Publisher(o, m, true, false));
  }

  lemma ConfirmAt(s: State, pid: Pid, o: OutboxId, m: Message)
    ensures ConfirmSendStep(With(s, pid, Publisher(o, m, true, false)), pid) ==
            With(s, pid, Publisher(o, m, true, true))
  {
    Updated(s, pid, Publisher(o, m, true, false), Publisher(o, m, true, true));
  }

  lemma PublishAt(s: State, pid: Pid, o: OutboxId, m: Message)
    requires Absent(s, pid)
    ensures PublishStep(With(s, pid, Publisher(o, m, true, true)), pid) == s.(db := MarkPublished(s.db, o).0)
  {
    Ended(s.(db := MarkPublished(s.db, o).0), pid, Publisher(o, m, true, true));
  }

  lemma PickRun(c: Config, s: State, pid: Pid, o: OutboxId)
    requires Absent(s, pid) && o in s.db.outbox && !s.db.outbox[o].published && s.db.outbox[o].event in s.db.events
    ensures After(c, s, [Pick(pid, o)]) ==
            With(s, pid, Publisher(o, MessageOf(s.db.outbox[o].event, s.db.events[s.db.outbox[o].event]), false, false))
  {
    PickAt(s, pid, o);
    hide *;
    AfterNone(c, s);
    AfterOne(c, s, [], Pick(pid, o));
    NextIs(c, s, Pick(pid, o));
    assert [] + [Pick(pid, o)] == [Pick(pid, o)];
  }

  lemma SendRun(c: Config, start: State, before: seq<Action>, s: State, pid: Pid, o: OutboxId, m: Message,
                mid: MessageId)
    requires After(c, start, before) == With(s, pid, Publisher(o, m, false, false)) && mid !in s.bodies
    ensures After(c, start, before + [Send(pid, mid)]) ==
            With(s.(bodies := s.bodies[mid := Parsed(m)], live := s.live + {mid}), pid, Publisher(o, m, true, false))
  {
    hide *;
    SendAt(s, pid, o, m, mid);
    AfterOne(c, start, before, Send(pid, mid));
    NextIs(c, After(c, start, before), Send(pid, mid));
  }

  lemma ConfirmRun(c: Config, start: State, before: seq<Action>, s: State, pid: Pid, o: OutboxId, m: Message)
    requires After(c, start, before) == With(s, pid, Publisher(o, m, true, false))
    ensures After(c, start, before + [ConfirmSend(pid)]) == With(s, pid, Publisher(o, m, true, true))
  {
    hide *;
    ConfirmAt(s, pid, o, m);
    AfterOne(c, start, before, ConfirmSend(pid));
    NextIs(c, After(c, start, before), ConfirmSend(pid));
  }

  lemma PublishRun(c: Config, start: State, before: seq<Action>, s: State, pid: Pid, o: OutboxId, m: Message)
    requires Absent(s, pid) && After(c, start, before) == With(s, pid, Publisher(o, m, true, true))
    ensures After(c, start, before + [Publish(pid)]) == s.(db := MarkPublished(s.db, o).0)
  {
    hide *;
    PublishAt(s, pid, o, m);
    AfterOne(c, start, before, Publish(pid));
    NextIs(c, After(c, start, before), Publish(pid));
  }

  /** How the send and the update go: each may take effect without being confirmed. */
  datatype Answers = Answers(sent: bool, sendConfirmed: bool, updated: bool, updateConfirmed: bool)

  datatype Publication = SendFailed | PersistFailed | Marked

  class OutboxPublisher {
    const c: Config
    var db: Database
    var bodies: map<MessageId, Body>
    var live: set<MessageId>

    constructor (c: Config, s: State)
      ensures this.c == c && Over(s) == s
    {
      this.c := c;
      db, bodies, live := s.db, s.bodies, s.live;
    }

    function Over(rest: State): State
      reads this
    {
      rest.(db := db, bodies := bodies, live := live)
    }

    method SendMessage(mid: MessageId, m: Message, a: Answers) returns (confirmed: bool)
      modifies this`bodies, this`live
      ensures bodies == if a.sent then old(bodies)[mid := Parsed(m)] else old(bodies)
      ensures live == if a.sent then old(live) + {mid} else old(live)
      ensures confirmed <==> a.sent && a.sendConfirmed
    {
      if a.sent {
        bodies := bodies[mid := Parsed(m)];
        live := live + {mid};
      }
      confirmed := a.sent && a.sendConfirmed;
    }

    /** The message of the row is built and sent. */
    method SendRow(ghost pid: Pid, o: OutboxId, mid: MessageId, a: Answers, ghost rest: State)
      returns (confirmed: bool, ghost m: Message, ghost run: seq<Action>)
      requires Absent(rest, pid) && mid !in bodies
      requires o in db.outbox && !db.outbox[o].published && db.outbox[o].event in db.events
      modifies this`bodies, this`live
      ensures After(c, old(Over(rest)), run) == With(Over(rest), pid, Publisher(o, m, a.sent, false))
      ensures var e := db.outbox[o].event; var row := db.events[e];
              m == Message(e, row.tenant, row.kind, if row.key.Some? then JsonNull else row.payload, row.key)
      ensures bodies == if a.sent then old(bodies)[mid := Parsed(m)] else old(bodies)
      ensures live == if a.sent then old(live) + {mid} else old(live)
      ensures confirmed <==> a.sent && a.sendConfirmed
    {
      ghost var start := Over(rest);
      PickRun(c, start, pid, o);
      run := [Pick(pid, o)];
      var e := db.outbox[o].event;
      var row := db.events[e];
      var message := Message(e, row.tenant, row.kind, if row.key.Some? then JsonNull else row.payload, row.key);
      m := message;
      hide After, With;
      if a.sent {
        SendRun(c, start, run, start, pid, o, m, mid);
        run := run + [Send(pid, mid)];
      }
      confirmed := SendMessage(mid, message, a);
    }

    /** publishOne: the message goes out first, and the row is marked only after the send is confirmed. */
    method PublishOne(ghost pid: Pid, o: OutboxId, mid: MessageId, a: Answers, ghost rest: State)
      returns (result: Publication, ghost run: seq<Action>)
      requires Absent(rest, pid) && mid !in bodies
      requires o in db.outbox && !db.outbox[o].published && db.outbox[o].event in db.events
      modifies this
      ensures After(c, old(Over(rest)), run) == Over(rest)
      ensures var e := old(db).outbox[o].event; var row := old(db).events[e];
              bodies == if !a.sent then old(bodies)
                        else old(bodies)[mid := Parsed(Message(e, row.tenant, row.kind,
                                                               if row.key.Some? then JsonNull else row.payload,
                                                               row.key))]
      ensures live == if a.sent then old(live) + {mid} else old(live)
      ensures db == if a.sent && a.sendConfirmed && a.updated
                    then old(db).(outbox := old(db).outbox[o := OutboxRow(old(db).outbox[o].event, true)])
                    else old(db)
      ensures result.SendFailed? <==> !(a.sent && a.sendConfirmed)
      ensures result.Marked? <==> a.sent && a.sendConfirmed && a.updated && a.updateConfirmed
    {
      hide After, With;
      ghost var start := Over(rest);
      var confirmed;
      ghost var m;
      confirmed, m, run := SendRow(pid, o, mid, a, rest);
      if !confirmed {
        CrashRun(c, Over(rest), start, run, pid, Publisher(o, m, a.sent, false));
        run := run + [Crash(pid)];
        return SendFailed, run;
      }
      ConfirmRun(c, start, run, Over(rest), pid, o, m);
      run := run + [ConfirmSend(pid)];
      if a.updated {
        PublishRun(c, start, run, Over(rest), pid, o, m);
        run := run + [Publish(pid)];
        db := db.(outbox := db.outbox[o := db.outbox[o].(published := true)]);
      } else {
        CrashRun(c, Over(rest), start, run, pid, Publisher(o, m, true, true));
        run := run + [Crash(pid)];
      }
      result := if a.updated && a.updateConfirmed then Marked else PersistFailed;
    }
  }
}
