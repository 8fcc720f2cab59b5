/** packages/worker/src/delivery/message-batch.ts: acknowledgements that overlap, at most `limit` at a
    time. Any number of callers may wait in `schedule`; each await is a separate step. */
module MessageBatch {
  import opened Store

  type TaskId = nat

  // ---- the steps of the callers and of the acknowledgements ----

  datatype Status = Waiting | Queued | Running | Settled(failed: bool)
  datatype Entry = Ran(task: TaskId) | Reported(task: TaskId)

  /** `status` knows every caller of schedule; `log` records what they did; `drain` is what the last
      call of drain waits for. */
  datatype Confirming = Confirming(limit: int, status: map<TaskId, Status>, pending: set<TaskId>,
                                   callbackErrors: seq<TaskId>, log: seq<Entry>, drain: Option<set<TaskId>>)

  datatype Event =
    | Schedules(task: TaskId)
    | Wakes(task: TaskId)                                       // Promise.race answered
    | Runs(task: TaskId)
    | Finishes(task: TaskId, failed: bool, reportThrows: bool)
    | BeginsDrain                                               // Promise.all over what is pending now

  predicate CanAdmit(pending: set<TaskId>, limit: int) {
    |pending| < limit
  }

  function AdmitTask(s: Confirming, task: TaskId): Confirming {
    if CanAdmit(s.pending, s.limit) then s.(status := s.status[task := Queued], pending := s.pending + {task})
    else s.(status := s.status[task := Waiting])
  }

  function Step(s: Confirming, e: Event): Confirming {
    match e
    case Schedules(task) => if task in s.status then s else AdmitTask(s, task)
    case Wakes(task) => if task in s.status && s.status[task].Waiting? then AdmitTask(s, task) else s
    case Runs(task) =>
      if task in s.status && s.status[task].Queued?
      then s.(status := s.status[task := Running], log := s.log + [Ran(task)]) else s
    case Finishes(task, failed, reportThrows) =>
      if task in s.status && s.status[task].Running? then
        s.(status := s.status[task := Settled(failed)], pending := s.pending - {task},
           callbackErrors := if failed && reportThrows then s.callbackErrors + [task] else s.callbackErrors,
           log := if failed then s.log + [Reported(task)] else s.log)
      else s
    case BeginsDrain => s.(drain := Some(s.pending))
  }

  function Begin(limit: int): Confirming { Confirming(limit, map[], {}, [], [], None) }

  // ---- the class ----

  class DeliveryConfirmations {
    var pending: set<TaskId>
    var callbackErrors: seq<TaskId>
    const limit: int
    /** How far the promise of each call has come. */
    var status: map<TaskId, Status>
    ghost var log: seq<Entry>
    ghost var drained: Option<set<TaskId>>

    ghost function State(): Confirming
      reads this
    {
      Confirming(limit, status, pending, callbackErrors, log, drained)
    }

    constructor Make(limit: int)
      requires limit >= 1
      ensures State() == Begin(limit)
    {
      pending, callbackErrors := {}, [];
      this.limit := limit;
      status, log, drained := map[], [], None;
    }

    static method Create(limit: int) returns (confirmations: Option<DeliveryConfirmations>)
      ensures confirmations.Some? <==> limit >= 1
      ensures confirmations.Some? ==> fresh(confirmations.value) && confirmations.value.State() == Begin(limit)
    {
      if limit < 1 {
        return None;
      }
      var made := new DeliveryConfirmations.Make(limit);
      confirmations := Some(made);
    }

    /** One turn of schedule's loop: full, so keep waiting, or it is added without another await. */
    method Admit(task: TaskId) returns (admitted: bool)
      requires task in status ==> status[task].Waiting?
      modifies this
      ensures State() == Step(old(State()), if task in old(status) then Wakes(task) else Schedules(task))
      ensures admitted <==> |old(pending)| < limit
      ensures task in status && status[task] == (if admitted then Queued else Waiting)
      ensures pending == if admitted then old(pending) + {task} else old(pending)
    {
      if |pending| >= limit {
        status := status[task := Waiting];
        return false;
      }
      pending := pending + {task};
      status := status[task := Queued];
      admitted := true;
    }

    /** The acknowledgement itself begins. */
    method Start(task: TaskId)
      requires task in status && status[task].Queued?
      modifies this
      ensures State() == Step(old(State()), Runs(task))
    {
      status := status[task := Running];
      log := log + [Ran(task)];
    }

    /** The end of a task. A failed acknowledgement is reported; when reporting throws, that is kept. */
    method Finish(task: TaskId, failed: bool, reportThrows: bool) returns (reported: bool)
      requires task in status && status[task].Running?
      modifies this
      ensures State() == Step(old(State()), Finishes(task, failed, reportThrows))
      ensures reported <==> failed
      ensures pending == old(pending) - {task} && status == old(status)[task := Settled(failed)]
      ensures callbackErrors == if failed && reportThrows then old(callbackErrors) + [task] else old(callbackErrors)
    {
      reported := failed;
      if failed {
        log := log + [Reported(task)];
        if reportThrows {
          callbackErrors := callbackErrors + [task];
        }
      }
      pending := pending - {task};
      status := status[task := Settled(failed)];
    }

    /** The set that drain waits for. */
    method BeginDrain() returns (awaited: set<TaskId>)
      modifies this
      ensures State() == Step(old(State()), BeginsDrain) && awaited == pending
    {
      awaited := pending;
      drained := Some(pending);
    }

    /** What drain waited for has settled: it throws every error that was kept, if there is one. */
    method EndDrain() returns (thrown: Option<seq<TaskId>>)
      requires drained.Some? && drained.value !! pending
      ensures thrown.Some? <==> callbackErrors != []
      ensures thrown.Some? ==> thrown.value == callbackErrors
    {
      thrown := if |callbackErrors| > 0 then Some(callbackErrors) else None;
    }
  }

  // ---- any number of callers ----

  function Run(limit: int, events: seq<Event>): Confirming {
    After(Begin(limit), events)
  }

  function After(s: Confirming, events: seq<Event>): Confirming {
    if events == [] then s else Step(After(s, events[..|events| - 1]), events[|events| - 1])
  }

  lemma {:induction false} AfterPlus(s: Confirming, a: seq<Event>, b: seq<Event>)
    ensures After(s, a + b) == After(After(s, a), b)
    decreases |b|
  {
    hide Step;
    if b == [] {
      assert a + b == a;
    } else {
      AfterPlus(s, a, b[..|b| - 1]);
      assert (a + b)[..|a + b| - 1] == a + b[..|b| - 1];
    }
  }

  function Times(log: seq<Entry>, e: Entry): nat {
    if log == [] then 0
    else Times(log[..|log| - 1], e) + if log[|log| - 1] == e then 1 else 0
  }

  ghost predicate TaskOk(s: Confirming, task: TaskId) {
    && (task in s.pending <==> task in s.status && (s.status[task].Queued? || s.status[task].Running?))
    && Times(s.log, Ran(task)) == (if task in s.status && (s.status[task].Running? || s.status[task].Settled?)
                                   then 1 else 0)
    && Times(s.log, Reported(task)) == (if task in s.status && s.status[task] == Settled(true) then 1 else 0)
  }

  ghost predicate ConfirmingOk(s: Confirming) {
    && s.limit >= 1
    && |s.pending| <= s.limit
    && (forall task :: TaskOk(s, task))
  }

  lemma TimesAppend(log: seq<Entry>, a: Entry, e: Entry)
    ensures Times(log + [a], e) == Times(log, e) + if a == e then 1 else 0
  {
    assert (log + [a])[..|log|] == log;
  }

  lemma TaskStepOk(s: Confirming, e: Event, task: TaskId)
    requires TaskOk(s, task)
    ensures TaskOk(Step(s, e), task)
  {
    hide Times;
    if e.Runs? {
      TimesAppend(s.log, Ran(e.task), Ran(task));
      TimesAppend(s.log, Ran(e.task), Reported(task));
    }
    if e.Finishes? {
      TimesAppend(s.log, Reported(e.task), Ran(task));
      TimesAppend(s.log, Reported(e.task), Reported(task));
    }
  }

  lemma PendingBounded(s: Confirming, e: Event)
    requires s.limit >= 1 && |s.pending| <= s.limit
    ensures Step(s, e).limit == s.limit && |Step(s, e).pending| <= s.limit
  {
  }

  lemma StepOk(s: Confirming, e: Event)
    requires ConfirmingOk(s)
    ensures ConfirmingOk(Step(s, e)) && Step(s, e).limit == s.limit
  {
    PendingBounded(s, e);
    hide Step, TaskOk;
    forall task ensures TaskOk(Step(s, e), task) {
      TaskStepOk(s, e, task);
    }
  }

  lemma {:induction false} AfterOk(s: Confirming, events: seq<Event>)
    requires ConfirmingOk(s)
    ensures ConfirmingOk(After(s, events)) && After(s, events).limit == s.limit
  {
    hide ConfirmingOk, Step;
    if events != [] {
      AfterOk(s, events[..|events| - 1]);
      StepOk(After(s, events[..|events| - 1]), events[|events| - 1]);
    }
  }

  lemma RunOk(limit: int, events: seq<Event>)
    requires limit >= 1
    ensures ConfirmingOk(Run(limit, events)) && Run(limit, events).limit == limit
  {
    AfterOk(Begin(limit), events);
  }

  /** However many callers there are: at most `limit` acknowledgements are pending; each accepted one
      that left the queue ran exactly once, each failed one is reported exactly once, and one whose
      caller still waits has done nothing. */
  lemma BoundedAndOnce(limit: int, events: seq<Event>, task: TaskId)
    requires limit >= 1 && task in Run(limit, events).status
    ensures var s := Run(limit, events);
            && |s.pending| <= limit
            && (s.status[task].Waiting? ==> task !in s.pending && Times(s.log, Ran(task)) == 0)
            && (s.status[task].Settled? ==> task !in s.pending && Times(s.log, Ran(task)) == 1)
            && Times(s.log, Reported(task)) == (if s.status[task] == Settled(true) then 1 else 0)
  {
    RunOk(limit, events);
    assert TaskOk(Run(limit, events), task);
  }

  /** Step `n` of the run is the end of a failed acknowledgement, whose report throws. */
  predicate ThrowsAt(limit: int, events: seq<Event>, task: TaskId, n: nat) {
    n < |events| && events[n] == Finishes(task, true, true) &&
    var s := Run(limit, events[..n]);
    task in s.status && s.status[task].Running?
  }

  ghost predicate Threw(limit: int, events: seq<Event>, task: TaskId) {
    exists n: nat :: ThrowsAt(limit, events, task, n)
  }

  lemma ThrewToo(limit: int, events: seq<Event>, task: TaskId)
    requires events != []
    ensures var n := |events| - 1;
            Threw(limit, events, task) <==> Threw(limit, events[..n], task) || ThrowsAt(limit, events, task, n)
  {
    var before := events[..|events| - 1];
    forall n: nat | n < |events| - 1 ensures ThrowsAt(limit, before, task, n) <==> ThrowsAt(limit, events, task, n) {
      assert before[..n] == events[..n];
    }
    assert forall n: nat | ThrowsAt(limit, events, task, n) :: n < |events|;
    assert forall n: nat | ThrowsAt(limit, before, task, n) :: n < |events| - 1;
    hide ThrowsAt;
  }

  /** drain will throw for a task, once, if and only if the report of its failed acknowledgement threw. */
  lemma {:induction false} ErrorsAreKept(limit: int, events: seq<Event>, task: TaskId)
    requires limit >= 1
    ensures var kept := multiset(Run(limit, events).callbackErrors)[task];
            kept <= 1 && (kept == 1 <==> Threw(limit, events, task))
    ensures task in Run(limit, events).callbackErrors ==>
              task in Run(limit, events).status && Run(limit, events).status[task] == Settled(true)
  {
    if events != [] {
      var before := events[..|events| - 1];
      ErrorsAreKept(limit, before, task);
      ThrewToo(limit, events, task);
      RunOk(limit, before);
      assert TaskOk(Run(limit, before), task);
      assert Run(limit, events) == Step(Run(limit, before), events[|events| - 1]);
      hide Run, Threw, ConfirmingOk, Times, After;
    } else {
      assert Run(limit, events) == Begin(limit);
    }
  }

  /** A caller that is new, or that waits, is admitted if and only if fewer than `limit` are pending. */
  lemma AdmittedIff(limit: int, events: seq<Event>, task: TaskId)
    requires limit >= 1
    requires task in Run(limit, events).status ==> Run(limit, events).status[task].Waiting?
    ensures var s := Run(limit, events);
            var t := Run(limit, events + [if task in s.status then Wakes(task) else Schedules(task)]);
            && task in t.status
            && (t.status[task].Queued? <==> |s.pending| < limit) && (t.status[task].Waiting? <==> |s.pending| >= limit)
            && t.pending == if |s.pending| < limit then s.pending + {task} else s.pending
  {
    RunOk(limit, events);
    var s := Run(limit, events);
    var e := if task in s.status then Wakes(task) else Schedules(task);
    assert (events + [e])[..|events|] == events;
    assert Run(limit, events + [e]) == Step(s, e);
    hide After, ConfirmingOk;
  }

  // ---- drain ----

  /** What drain waits for has settled. */
  predicate Drained(s: Confirming) {
    s.drain.Some? && s.drain.value !! s.pending
  }

  /** Nobody calls schedule or drain; callers that were waiting in schedule may go on. */
  predicate NothingNew(events: seq<Event>) {
    forall e | e in events :: !e.Schedules? && !e.BeginsDrain?
  }

  predicate NoneWaiting(s: Confirming) {
    forall task | task in s.status :: !s.status[task].Waiting?
  }

  /** The promise of drain, for a drain that has just begun. */
  ghost predicate DrainLeavesNothing(s: Confirming) {
    forall events | NothingNew(events) && Drained(After(s, events)) :: After(s, events).pending == {}
  }

  lemma {:induction false} OnlyLeave(s: Confirming, events: seq<Event>)
    requires NothingNew(events) && NoneWaiting(s)
    ensures var t := After(s, events); t.drain == s.drain && t.pending <= s.pending && NoneWaiting(t)
  {
    if events != [] {
      assert events[|events| - 1] in events;
      OnlyLeave(s, events[..|events| - 1]);
    }
  }

  /** Every pending acknowledgement begins, if it has not, and ends. */
  ghost function SettleAll(tasks: set<TaskId>): seq<Event>
    decreases |tasks|
  {
    if tasks == {} then []
    else
      var task :| task in tasks;
      SettleAll(tasks - {task}) + [Runs(task), Finishes(task, false, false)]
  }

  lemma {:induction false} SettledAll(s: Confirming, tasks: set<TaskId>, waiting: TaskId)
    requires ConfirmingOk(s) && tasks <= s.pending && waiting in s.status && s.status[waiting].Waiting?
    ensures NothingNew(SettleAll(tasks))
    ensures var t := After(s, SettleAll(tasks));
            && ConfirmingOk(t) && t.limit == s.limit && t.drain == s.drain && t.pending == s.pending - tasks
            && waiting in t.status && t.status[waiting].Waiting?
    decreases |tasks|
  {
    AfterOk(s, SettleAll(tasks));
    if tasks != {} {
      var task :| task in tasks &&
                  SettleAll(tasks) == SettleAll(tasks - {task}) + [Runs(task), Finishes(task, false, false)];
      SettledAll(s, tasks - {task}, waiting);
      var before := After(s, SettleAll(tasks - {task}));
      assert TaskOk(before, task) && TaskOk(before, waiting);
      AfterPlus(s, SettleAll(tasks - {task}), [Runs(task), Finishes(task, false, false)]);
      SettleOne(before, task);
      assert s.pending - tasks == (s.pending - (tasks - {task})) - {task};
    }
  }

  lemma SettleOne(s: Confirming, task: TaskId)
    requires TaskOk(s, task) && task in s.pending
    ensures var t := After(s, [Runs(task), Finishes(task, false, false)]);
            && t.drain == s.drain && t.limit == s.limit && t.pending == s.pending - {task}
            && forall other | other in s.status && other != task ::
                 other in t.status && t.status[other] == s.status[other]
  {
    var events := [Runs(task), Finishes(task, false, false)];
    assert events[..1] == [Runs(task)] && [Runs(task)][..0] == [];
    assert After(s, [Runs(task)]) == Step(After(s, []), Runs(task));
    assert After(s, events) == Step(After(s, events[..1]), Finishes(task, false, false));
  }

  /** drain keeps its promise if and only if no caller is waiting in schedule when it begins. */
  lemma DrainWaitsForAll(limit: int, events: seq<Event>)
    requires limit >= 1
    ensures var s := Run(limit, events + [BeginsDrain]); DrainLeavesNothing(s) <==> NoneWaiting(s)
  {
    var s := Run(limit, events + [BeginsDrain]);
    RunOk(limit, events + [BeginsDrain]);
    assert (events + [BeginsDrain])[..|events|] == events;
    assert s.drain == Some(s.pending);
    if NoneWaiting(s) {
      forall later | NothingNew(later) && Drained(After(s, later)) ensures After(s, later).pending == {} {
        OnlyLeave(s, later);
      }
    } else {
      var task :| task in s.status && s.status[task].Waiting?;
      DrainMissesWaiting(s, task);
    }
  }

  /** The waiting caller goes on when the drained ones have settled, and is not waited for. */
  lemma DrainMissesWaiting(s: Confirming, task: TaskId)
    requires ConfirmingOk(s) && s.drain == Some(s.pending) && task in s.status && s.status[task].Waiting?
    ensures var later := SettleAll(s.pending) + [Wakes(task)];
            NothingNew(later) && Drained(After(s, later)) && After(s, later).pending == {task}
  {
    var later := SettleAll(s.pending) + [Wakes(task)];
    SettledAll(s, s.pending, task);
    assert later[..|later| - 1] == SettleAll(s.pending);
    assert TaskOk(s, task);
  }
}
