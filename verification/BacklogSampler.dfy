/** packages/worker/src/metrics/backlog-sampler.ts: the background sampler. Its callbacks are the steps
    of a machine: they run one at a time, and a timer fires only while no callback of a settled promise
    is waiting, as the JavaScript event loop orders them. */
module BacklogSampler {
  import opened BacklogMetrics

  type SampleId = nat

  datatype Phase =
    | Created                   // its first callback has not run
    | Reading                   // read(signal) is outstanding
    | Read(sample: Sample)      // the read succeeded and its callback has not run
    | Rejected                  // read or record threw and `failure` has not run
    | Settled                   // only the `finally` callback is left

  /** One call of `run`. The deadline timer is armed until it fires or is cleared. */
  datatype Task = Task(source: BacklogSource, phase: Phase, deadline: bool, aborted: bool, failed: bool)

  /** How a sample ended: recorded at some time, or failed. */
  datatype Resolution = Resolution(id: SampleId, source: BacklogSource, good: bool, sample: Sample, at: real)

  /** `waiting` holds the timers of the next samples. `resolved` is the history of the samples. */
  datatype Sampler = Sampler(stopped: bool, nextId: SampleId, tasks: map<SampleId, Task>,
                             waiting: map<SampleId, BacklogSource>, gauges: Gauges, resolved: seq<Resolution>)

  datatype Action =
    | BeginRead(id: SampleId)
    | ReadSucceeds(id: SampleId, sample: Sample)
    | ReadFails(id: SampleId)
    | Then(id: SampleId, at: real)
    | Catch(id: SampleId)
    | Finally(id: SampleId)
    | Deadline(id: SampleId)
    | NextSample(id: SampleId)
    | Stop

  // ---- the callbacks ----

  function Set(s: Sampler, id: SampleId, task: Task): Sampler {
    s.(tasks := s.tasks[id := task])
  }

  function Begin(s: Sampler, source: BacklogSource): Sampler {
    if s.stopped then s
    else s.(nextId := s.nextId + 1, tasks := s.tasks[s.nextId := Task(source, Created, true, false, false)])
  }

  const Nowhere := OutboxCount(NaN)

  /** `failure` and the phase or deadline change of its caller, which is already in `task`. */
  function Fail(s: Sampler, id: SampleId, task: Task): Sampler {
    if s.stopped || task.failed then Set(s, id, task)
    else Set(s, id, task.(failed := true))
           .(gauges := Missed(s.gauges, task.source),
             resolved := s.resolved + [Resolution(id, task.source, false, Nowhere, 0.0)])
  }

  function Accept(s: Sampler, id: SampleId, task: Task, at: real): Sampler
    requires task.phase.Read?
  {
    var sample := task.phase.sample;
    if s.stopped || task.aborted then Set(s, id, task.(phase := Settled))
    else if !Recordable(sample) then Set(s, id, task.(phase := Rejected))
    else Set(s, id, task.(phase := Settled))
           .(gauges := Recorded(s.gauges, sample, at),
             resolved := s.resolved + [Resolution(id, task.source, true, sample, at)])
  }

  function End(s: Sampler, id: SampleId): Sampler
    requires id in s.tasks
  {
    s.(tasks := s.tasks - {id}, waiting := if s.stopped then s.waiting else s.waiting[id := s.tasks[id].source])
  }

  function Stopped(s: Sampler): Sampler {
    s.(stopped := true, waiting := map[], tasks := map id | id in s.tasks ::
       s.tasks[id].(deadline := false, aborted := true))
  }

  /** No callback of a promise is waiting. */
  predicate Quiet(s: Sampler) {
    forall id | id in s.tasks :: s.tasks[id].phase.Reading?
  }

  function Step(s: Sampler, a: Action): Sampler {
    match a
    case BeginRead(id) =>
      if id in s.tasks && s.tasks[id].phase.Created?
      then Set(s, id, s.tasks[id].(phase := if s.tasks[id].aborted then Rejected else Reading)) else s
    case ReadSucceeds(id, sample) =>
      if id in s.tasks && s.tasks[id].phase.Reading? && SourceOf(sample) == s.tasks[id].source
      then Set(s, id, s.tasks[id].(phase := Read(sample))) else s
    case ReadFails(id) =>
      if id in s.tasks && s.tasks[id].phase.Reading? then Set(s, id, s.tasks[id].(phase := Rejected)) else s
    case Then(id, at) =>
      if id in s.tasks && s.tasks[id].phase.Read? then Accept(s, id, s.tasks[id], at) else s
    case Catch(id) =>
      if id in s.tasks && s.tasks[id].phase.Rejected? then Fail(s, id, s.tasks[id].(phase := Settled)) else s
    case Finally(id) =>
      if id in s.tasks && s.tasks[id].phase.Settled? then End(s, id) else s
    case Deadline(id) =>
      if Quiet(s) && id in s.tasks && s.tasks[id].deadline
      then Fail(s, id, s.tasks[id].(deadline := false, aborted := true)) else s
    case NextSample(id) =>
      if Quiet(s) && id in s.waiting then Begin(s.(waiting := s.waiting - {id}), s.waiting[id]) else s
    case Stop => Stopped(s)
  }

  const Start := Begin(Begin(Sampler(false, 0, map[], map[], Fresh, []), Outbox), Sqs)

  function Run(actions: seq<Action>): Sampler {
    if actions == [] then Start else Step(Run(actions[..|actions| - 1]), actions[|actions| - 1])
  }

  // ---- what holds in every state ----

  predicate Resolves(h: seq<Resolution>, id: SampleId) {
    exists i | 0 <= i < |h| :: h[i].id == id
  }

  predicate TaskOk(s: Sampler, id: SampleId)
    requires id in s.tasks
  {
    var t := s.tasks[id];
    && id < s.nextId && id !in s.waiting
    && (t.deadline ==> !t.aborted && !s.stopped)
    && (t.aborted ==> t.failed || s.stopped)
    && (t.failed ==> t.aborted || t.phase.Settled?)
    && (t.phase.Read? ==> SourceOf(t.phase.sample) == t.source)
    && (s.stopped ==> t.aborted)
    && (!t.failed && !t.phase.Settled? ==> !Resolves(s.resolved, id))
  }

  /** The samples of a source that are under way or waiting for their timer. */
  function Holders(s: Sampler, source: BacklogSource): set<SampleId> {
    (set id | id in s.tasks && s.tasks[id].source == source) + (set id | id in s.waiting && s.waiting[id] == source)
  }

  ghost predicate One(ids: set<SampleId>, stopped: bool) {
    (stopped && ids == {}) || exists id :: ids == {id}
  }

  predicate ResolvedOnce(h: seq<Resolution>, nextId: SampleId) {
    && (forall i | 0 <= i < |h| :: h[i].id < nextId)
    && (forall i, j | 0 <= i < j < |h| :: h[i].id != h[j].id)
  }

  ghost predicate SamplerOk(s: Sampler) {
    && (forall id | id in s.tasks :: TaskOk(s, id))
    && (forall id | id in s.waiting :: id < s.nextId && !s.stopped)
    && One(Holders(s, Outbox), s.stopped) && One(Holders(s, Sqs), s.stopped)
    && ResolvedOnce(s.resolved, s.nextId)
    && s.gauges == Shown(s.resolved)
  }

  // ---- the gauges as a function of the history ----

  /** The last sample of a source that was recorded. */
  function LastGood(h: seq<Resolution>, source: BacklogSource): (r: seq<Resolution>)
    ensures |r| <= 1
  {
    if h == [] then []
    else
      var last := h[|h| - 1];
      if last.source == source && last.good then [last] else LastGood(h[..|h| - 1], source)
  }

  /** The last sample of a source that ended at all. */
  function Latest(h: seq<Resolution>, source: BacklogSource): (r: seq<Resolution>)
    ensures |r| <= 1
  {
    if h == [] then []
    else
      var last := h[|h| - 1];
      if last.source == source then [last] else Latest(h[..|h| - 1], source)
  }

  function HealthShown(h: seq<Resolution>, source: BacklogSource): Health {
    Health(if Latest(h, source) != [] && Latest(h, source)[0].good then 1 else 0,
           if LastGood(h, source) != [] then LastGood(h, source)[0].at else 0.0)
  }

  function Shown(h: seq<Resolution>): Gauges {
    var outbox, sqs := LastGood(h, Outbox), LastGood(h, Sqs);
    Gauges(if outbox != [] && outbox[0].sample.OutboxCount? then outbox[0].sample.count else NaN,
           if sqs != [] && sqs[0].sample.QueueDepth? then sqs[0].sample.depth else Depth(NaN, NaN, NaN),
           HealthShown(h, Outbox), HealthShown(h, Sqs))
  }

  lemma ShownAfter(h: seq<Resolution>, r: Resolution)
    requires r.good ==> SourceOf(r.sample) == r.source
    ensures Shown(h + [r]) == if r.good then Recorded(Shown(h), r.sample, r.at) else Missed(Shown(h), r.source)
  {
    assert (h + [r])[..|h|] == h;
  }

  // ---- each callback keeps it ----

  /** What the callbacks of one task may do to it: stay with its source and keep TaskOk. */
  lemma SetOk(s: Sampler, id: SampleId, task: Task)
    requires SamplerOk(s) && id in s.tasks && task.source == s.tasks[id].source
    requires TaskOk(Set(s, id, task), id)
    ensures SamplerOk(Set(s, id, task))
  {
    hide Shown, ResolvedOnce, One, Resolves;
    var t := Set(s, id, task);
    HoldersKept(s, t);
    hide Holders;
    assert forall k | k in t.tasks && k != id :: TaskOk(s, k);
  }

  lemma HoldersKept(s: Sampler, t: Sampler)
    requires t.tasks.Keys == s.tasks.Keys && t.waiting == s.waiting
    requires forall id | id in s.tasks :: t.tasks[id].source == s.tasks[id].source
    ensures Holders(t, Outbox) == Holders(s, Outbox) && Holders(t, Sqs) == Holders(s, Sqs)
  {
  }

  /** A task that had not resolved does: the gauges follow the history. */
  lemma ResolveOk(s: Sampler, id: SampleId, task: Task, r: Resolution, gauges: Gauges)
    requires SamplerOk(s) && !s.stopped && id in s.tasks && task.source == s.tasks[id].source
    requires !Resolves(s.resolved, id) && r.id == id && (r.good ==> SourceOf(r.sample) == r.source)
    requires gauges == if r.good then Recorded(s.gauges, r.sample, r.at) else Missed(s.gauges, r.source)
    requires (task.deadline ==> !task.aborted) && (task.aborted ==> task.failed) && (task.failed || task.phase.Settled?)
    requires (task.failed ==> task.aborted || task.phase.Settled?) && !task.phase.Read?
    ensures SamplerOk(Set(s, id, task).(gauges := gauges, resolved := s.resolved + [r]))
  {
    var t := Set(s, id, task).(gauges := gauges, resolved := s.resolved + [r]);
    HoldersKept(s, t);
    ShownAfter(s.resolved, r);
    hide Shown, One, Holders, Recorded, Missed;
    assert ResolvedOnce(t.resolved, t.nextId);
    hide ResolvedOnce;
    forall k | k in t.tasks ensures TaskOk(t, k) {
      if k != id {
        OtherTaskOk(s, t, k, r);
      }
    }
  }

  lemma OtherTaskOk(s: Sampler, t: Sampler, k: SampleId, r: Resolution)
    requires k in s.tasks && TaskOk(s, k) && k in t.tasks && t.tasks[k] == s.tasks[k] && r.id != k
    requires t.nextId == s.nextId && t.waiting == s.waiting && t.stopped == s.stopped && t.resolved == s.resolved + [r]
    ensures TaskOk(t, k)
  {
    if Resolves(t.resolved, k) {
      var i :| 0 <= i < |t.resolved| && t.resolved[i].id == k;
      assert i < |s.resolved| && s.resolved[i].id == k;
    }
  }

  lemma FailOk(s: Sampler, id: SampleId, task: Task)
    requires SamplerOk(s) && id in s.tasks && task.source == s.tasks[id].source && task.failed == s.tasks[id].failed
    requires !s.stopped && !task.failed
    requires !Resolves(s.resolved, id) && (task.deadline ==> !task.aborted) && (task.aborted || task.phase.Settled?)
             && !task.phase.Read?
    ensures SamplerOk(Fail(s, id, task))
  {
    ResolveOk(s, id, task.(failed := true), Resolution(id, task.source, false, Nowhere, 0.0),
              Missed(s.gauges, task.source));
  }

  lemma CatchOk(s: Sampler, id: SampleId)
    requires SamplerOk(s) && id in s.tasks && s.tasks[id].phase.Rejected?
    ensures SamplerOk(Step(s, Catch(id)))
  {
    hide Shown, One, Holders, ResolvedOnce;
    assert TaskOk(s, id);
    if s.stopped || s.tasks[id].failed {
      SetOk(s, id, s.tasks[id].(phase := Settled));
    } else {
      FailOk(s, id, s.tasks[id].(phase := Settled));
    }
  }

  lemma DeadlineOk(s: Sampler, id: SampleId)
    requires SamplerOk(s) && id in s.tasks && s.tasks[id].deadline && s.tasks[id].phase.Reading?
    ensures SamplerOk(Fail(s, id, s.tasks[id].(deadline := false, aborted := true)))
  {
    hide Shown, One, Holders, ResolvedOnce;
    assert TaskOk(s, id);
    FailOk(s, id, s.tasks[id].(deadline := false, aborted := true));
  }

  lemma ThenOk(s: Sampler, id: SampleId, at: real)
    requires SamplerOk(s) && id in s.tasks && s.tasks[id].phase.Read?
    ensures SamplerOk(Accept(s, id, s.tasks[id], at))
  {
    hide Shown, One, Holders, ResolvedOnce, Recordable, Recorded;
    assert TaskOk(s, id);
    var task := s.tasks[id];
    var sample := task.phase.sample;
    if s.stopped || task.aborted {
      SetOk(s, id, task.(phase := Settled));
    } else if !Recordable(sample) {
      SetOk(s, id, task.(phase := Rejected));
    } else {
      ResolveOk(s, id, task.(phase := Settled), Resolution(id, task.source, true, sample, at),
                Recorded(s.gauges, sample, at));
    }
  }

  lemma EndOk(s: Sampler, id: SampleId)
    requires SamplerOk(s) && id in s.tasks
    ensures SamplerOk(End(s, id))
  {
    hide Shown, ResolvedOnce, Resolves;
    var t := End(s, id);
    assert TaskOk(s, id);
    EndHolders(s, id, Outbox);
    EndHolders(s, id, Sqs);
    assert forall k | k in t.tasks :: k != id && TaskOk(s, k);
    hide One, Holders;
  }

  lemma EndHolders(s: Sampler, id: SampleId, source: BacklogSource)
    requires id in s.tasks && id !in s.waiting && One(Holders(s, source), s.stopped)
    requires s.stopped ==> s.waiting == map[]
    ensures One(Holders(End(s, id), source), s.stopped)
  {
    var ids := Holders(s, source);
    if s.stopped {
      assert Holders(End(s, id), source) == ids - {id};
      if exists k :: ids == {k} {
        var k :| ids == {k};
        assert ids - {id} == {} || ids - {id} == {k};
      }
    } else {
      assert Holders(End(s, id), source) == ids;
    }
  }

  lemma NextSampleOk(s: Sampler, id: SampleId)
    requires SamplerOk(s) && id in s.waiting
    ensures SamplerOk(Begin(s.(waiting := s.waiting - {id}), s.waiting[id]))
  {
    hide Shown, ResolvedOnce;
    var t := Begin(s.(waiting := s.waiting - {id}), s.waiting[id]);
    BeginHolders(s, id, Outbox);
    BeginHolders(s, id, Sqs);
    hide One, Holders;
    ResolvedLater(s.resolved, s.nextId);
    hide Resolves;
    forall k | k in t.tasks ensures TaskOk(t, k) {
      if k != s.nextId {
        assert TaskOk(s, k);
      }
    }
  }

  lemma ResolvedLater(h: seq<Resolution>, nextId: SampleId)
    requires ResolvedOnce(h, nextId)
    ensures ResolvedOnce(h, nextId + 1) && !Resolves(h, nextId)
  {
  }

  lemma BeginHolders(s: Sampler, id: SampleId, source: BacklogSource)
    requires id in s.waiting && s.nextId !in s.waiting && s.nextId !in s.tasks && id !in s.tasks && !s.stopped
    requires One(Holders(s, source), s.stopped)
    ensures One(Holders(Begin(s.(waiting := s.waiting - {id}), s.waiting[id]), source), s.stopped)
  {
    var t := Begin(s.(waiting := s.waiting - {id}), s.waiting[id]);
    var k :| Holders(s, source) == {k};
    if s.waiting[id] == source {
      assert id in Holders(s, source) && id == k;
      forall x | x in Holders(t, source) ensures x == s.nextId {
        assert x in s.tasks && x != s.nextId ==> x in Holders(s, source);
        assert x in t.waiting ==> x in Holders(s, source);
      }
      assert s.nextId in Holders(t, source);
      assert Holders(t, source) == {s.nextId};
    } else {
      assert Holders(t, source) == Holders(s, source);
    }
  }

  lemma StopOk(s: Sampler)
    requires SamplerOk(s)
    ensures SamplerOk(Stopped(s))
  {
    hide Shown, ResolvedOnce, Resolves;
    var t := Stopped(s);
    StopHolders(s, Outbox);
    StopHolders(s, Sqs);
    hide One, Holders;
    assert forall k | k in t.tasks :: TaskOk(s, k);
  }

  lemma StopHolders(s: Sampler, source: BacklogSource)
    requires One(Holders(s, source), s.stopped)
    ensures One(Holders(Stopped(s), source), true)
  {
    assert Holders(Stopped(s), source) <= Holders(s, source);
    if exists k :: Holders(s, source) == {k} {
      var k :| Holders(s, source) == {k};
      assert Holders(Stopped(s), source) == {} || Holders(Stopped(s), source) == {k};
    }
  }

  lemma StepOk(s: Sampler, a: Action)
    requires SamplerOk(s)
    ensures SamplerOk(Step(s, a))
  {
    hide Shown, One, Holders, ResolvedOnce, Resolves, Recorded, Recordable;
    if Step(s, a) != s {
      assert a.Stop? || a.NextSample? || (a.id in s.tasks && TaskOk(s, a.id));
      match a {
        case BeginRead(id) => SetOk(s, id, Step(s, a).tasks[id]);
        case ReadSucceeds(id, sample) => SetOk(s, id, Step(s, a).tasks[id]);
        case ReadFails(id) => SetOk(s, id, Step(s, a).tasks[id]);
        case Then(id, at) => ThenOk(s, id, at);
        case Catch(id) => CatchOk(s, id);
        case Finally(id) => EndOk(s, id);
        case Deadline(id) => DeadlineOk(s, id);
        case NextSample(id) => NextSampleOk(s, id);
        case Stop => StopOk(s);
      }
    }
  }

  lemma StartOk()
    ensures SamplerOk(Start)
  {
    assert Holders(Start, Outbox) == {0} && Holders(Start, Sqs) == {1};
  }

  lemma {:induction false} RunOk(actions: seq<Action>)
    ensures SamplerOk(Run(actions))
  {
    if actions == [] {
      StartOk();
    } else {
      RunOk(actions[..|actions| - 1]);
      StepOk(Run(actions[..|actions| - 1]), actions[|actions| - 1]);
    }
  }

  // ---- the guarantees ----

  /** Each source has exactly one sample under way or waiting for its timer until `stop`, and at most
      one read left after it, so reads never overlap and sampling never dies out. */
  lemma OneSampleEach(actions: seq<Action>, source: BacklogSource)
    ensures var s := Run(actions);
            && (!s.stopped ==> exists id :: Holders(s, source) == {id})
            && (s.stopped ==> s.waiting == map[])
            && forall i, j | i in s.tasks && j in s.tasks && s.tasks[i].source == source == s.tasks[j].source :: i == j
  {
    RunOk(actions);
    var s := Run(actions);
    hide Shown, ResolvedOnce, Resolves;
    assert One(Holders(s, source), s.stopped);
    forall i, j | i in s.tasks && j in s.tasks && s.tasks[i].source == source == s.tasks[j].source ensures i == j {
      assert i in Holders(s, source) && j in Holders(s, source);
    }
  }

  /** The gauges always show the last good sample of each source, when it was taken, and whether the
      last sample that ended was good. */
  lemma GaugesAreHistory(actions: seq<Action>)
    ensures Run(actions).gauges == Shown(Run(actions).resolved)
    ensures forall i, j | 0 <= i < j < |Run(actions).resolved| ::
            Run(actions).resolved[i].id != Run(actions).resolved[j].id
  {
    RunOk(actions);
  }

  predicate Concerns(a: Action, id: SampleId) {
    match a
    case Stop => false
    case _ => a.id == id
  }

  lemma LateStep(s: Sampler, id: SampleId, a: Action)
    requires SamplerOk(s) && (id in s.tasks ==> s.tasks[id].aborted) && Concerns(a, id)
    ensures Step(s, a).gauges == s.gauges && Step(s, a).resolved == s.resolved
  {
    assert id in s.tasks ==> TaskOk(s, id);
    hide Shown, One, Holders, ResolvedOnce, Resolves, Recorded, Recordable, Missed;
  }

  /** The abort of a sample lasts until it is gone, and its id does not come back. */
  lemma AbortLasts(s: Sampler, id: SampleId, a: Action)
    requires id < s.nextId && (id in s.tasks ==> s.tasks[id].aborted)
    ensures var t := Step(s, a); id < t.nextId && (id in t.tasks ==> t.tasks[id].aborted)
  {
    hide Recorded, Missed, Recordable, SourceOf, Quiet;
  }

  lemma {:induction false} StaysAborted(actions: seq<Action>, id: SampleId, more: seq<Action>)
    requires id in Run(actions).tasks && Run(actions).tasks[id].aborted
    ensures var t := Run(actions + more); id < t.nextId && (id in t.tasks ==> t.tasks[id].aborted)
    decreases |more|
  {
    hide Step, SamplerOk;
    if more == [] {
      assert actions + more == actions;
      RunOk(actions);
      KnownId(Run(actions), id);
    } else {
      var n := |more| - 1;
      StaysAborted(actions, id, more[..n]);
      assert (actions + more)[..|actions| + n] == actions + more[..n];
      AbortLasts(Run(actions + more[..n]), id, more[n]);
    }
  }

  lemma KnownId(s: Sampler, id: SampleId)
    requires SamplerOk(s) && id in s.tasks
    ensures id < s.nextId
  {
    assert TaskOk(s, id);
    hide Shown, One, Holders, ResolvedOnce;
  }

  /** A read that outlives its deadline or stop changes no gauge at any later step of its sample, however
      long it takes and whatever it answers. */
  lemma LateReadIsIgnored(actions: seq<Action>, id: SampleId, more: seq<Action>, a: Action)
    requires id in Run(actions).tasks && Run(actions).tasks[id].aborted && Concerns(a, id)
    ensures Run(actions + more + [a]).gauges == Run(actions + more).gauges
    ensures Run(actions + more + [a]).resolved == Run(actions + more).resolved
  {
    StaysAborted(actions, id, more);
    RunOk(actions + more);
    assert (actions + more + [a])[..|actions + more|] == actions + more;
    hide Step, SamplerOk;
    LateStep(Run(actions + more), id, a);
  }

  /** Once stopped, no gauge changes and no sample begins, so `stop` has nothing to wait for beyond
      what it found. */
  lemma {:induction false} StopIsFinal(actions: seq<Action>, more: seq<Action>)
    requires Run(actions).stopped
    ensures var s, t := Run(actions), Run(actions + more);
            && t.stopped && t.gauges == s.gauges && t.resolved == s.resolved && t.tasks.Keys <= s.tasks.Keys
    decreases |more|
  {
    hide Step, SamplerOk;
    if more == [] {
      assert actions + more == actions;
    } else {
      var n := |more| - 1;
      StopIsFinal(actions, more[..n]);
      assert (actions + more)[..|actions| + n] == actions + more[..n];
      RunOk(actions + more[..n]);
      StoppedStep(Run(actions + more[..n]), more[n]);
    }
  }

  lemma StoppedStep(s: Sampler, a: Action)
    requires SamplerOk(s) && s.stopped
    ensures var t := Step(s, a);
            && t.stopped && t.gauges == s.gauges && t.resolved == s.resolved
            && t.tasks.Keys <= s.tasks.Keys
  {
    hide Shown, One, Holders, ResolvedOnce, Resolves, Recorded, Recordable;
  }

  // ---- every sample ends in the history ----

  /** Without stop, a sample that failed, settled or is gone has its place in the history. */
  ghost predicate EndsResolved(s: Sampler) {
    !s.stopped ==>
      && (forall id: SampleId | id < s.nextId && id !in s.tasks :: Resolves(s.resolved, id))
      && (forall id | id in s.tasks && (s.tasks[id].failed || s.tasks[id].phase.Settled?) :: Resolves(s.resolved, id))
  }

  lemma ResolvesMore(h: seq<Resolution>, r: Resolution, id: SampleId)
    ensures Resolves(h + [r], id) <==> Resolves(h, id) || r.id == id
  {
    if Resolves(h, id) {
      var i :| 0 <= i < |h| && h[i].id == id;
      assert (h + [r])[i].id == id;
    }
    assert (h + [r])[|h|] == r;
  }

  /** A step that adds nothing to the history settles no sample and loses none that has not settled. */
  lemma EndsResolvedQuietly(s: Sampler, a: Action)
    requires EndsResolved(s)
    requires !a.Then? && !a.Catch? && !a.Deadline?
    ensures EndsResolved(Step(s, a))
  {
    hide Resolves, SourceOf, Quiet;
  }

  lemma EndsResolvedByFailure(s: Sampler, id: SampleId, task: Task)
    requires EndsResolved(s) && id in s.tasks && task.failed == s.tasks[id].failed
    ensures EndsResolved(Fail(s, id, task))
  {
    var t := Fail(s, id, task);
    if |t.resolved| != |s.resolved| {
      forall k: SampleId ensures Resolves(t.resolved, k) <==> Resolves(s.resolved, k) || k == id {
        ResolvesMore(s.resolved, t.resolved[|s.resolved|], k);
      }
    }
    hide Resolves, Missed;
  }

  lemma EndsResolvedByRead(s: Sampler, id: SampleId, at: real)
    requires EndsResolved(s) && id in s.tasks && s.tasks[id].phase.Read? && TaskOk(s, id)
    ensures EndsResolved(Accept(s, id, s.tasks[id], at))
  {
    var t := Accept(s, id, s.tasks[id], at);
    if |t.resolved| != |s.resolved| {
      forall k: SampleId ensures Resolves(t.resolved, k) <==> Resolves(s.resolved, k) || k == id {
        ResolvesMore(s.resolved, t.resolved[|s.resolved|], k);
      }
    }
    hide Resolves, Recorded, Recordable, SourceOf;
  }

  lemma EndsResolvedStep(s: Sampler, a: Action)
    requires SamplerOk(s) && EndsResolved(s)
    ensures EndsResolved(Step(s, a))
  {
    if Step(s, a) != s {
      assert (a.Then? || a.Catch? || a.Deadline?) ==> a.id in s.tasks && TaskOk(s, a.id);
      hide EndsResolved, SamplerOk, TaskOk, Fail, Accept, Quiet, End, Begin, Stopped;
      match a {
        case Then(id, at) => EndsResolvedByRead(s, id, at);
        case Catch(id) => EndsResolvedByFailure(s, id, s.tasks[id].(phase := Settled));
        case Deadline(id) => EndsResolvedByFailure(s, id, s.tasks[id].(deadline := false, aborted := true));
        case _ => EndsResolvedQuietly(s, a);
      }
    }
  }

  lemma {:induction false} RunEndsResolved(actions: seq<Action>)
    ensures EndsResolved(Run(actions))
  {
    hide Step, SamplerOk;
    if actions != [] {
      RunEndsResolved(actions[..|actions| - 1]);
      RunOk(actions[..|actions| - 1]);
      EndsResolvedStep(Run(actions[..|actions| - 1]), actions[|actions| - 1]);
    }
  }

  /** Until stop every sample that began is still under way or has ended, as a good one or a failure. */
  lemma EverySampleResolves(actions: seq<Action>, id: SampleId)
    requires !Run(actions).stopped && id < Run(actions).nextId && id !in Run(actions).tasks
    ensures exists i :: 0 <= i < |Run(actions).resolved| && Run(actions).resolved[i].id == id
  {
    RunEndsResolved(actions);
    assert Resolves(Run(actions).resolved, id);
    hide Run;
  }

  // ---- a good read is shown again ----

  predicate Endless(more: seq<Action>) {
    forall a | a in more :: !a.Stop?
  }

  lemma RunMore(actions: seq<Action>, more: seq<Action>, a: Action)
    ensures Run(actions + (more + [a])) == Step(Run(actions + more), a)
  {
    assert (actions + (more + [a]))[..|actions + more|] == actions + more;
  }

  lemma RunTwo(actions: seq<Action>, a: Action, b: Action)
    ensures Run(actions + [a, b]) == Step(Step(Run(actions), a), b)
  {
    hide *;
    RunMore(actions, [], a);
    RunMore(actions, [a], b);
    assert actions + [] == actions && [] + [a] == [a] && [a] + [b] == [a, b];
  }

  lemma RunThree(actions: seq<Action>, a: Action, b: Action, c: Action)
    ensures Run(actions + [a, b, c]) == Step(Step(Step(Run(actions), a), b), c)
  {
    hide *;
    RunTwo(actions, a, b);
    RunMore(actions, [a, b], c);
    assert [a, b] + [c] == [a, b, c];
  }

  lemma EndlessBoth(first: seq<Action>, more: seq<Action>)
    requires Endless(first) && Endless(more)
    ensures Endless(first + more)
  {
  }

  /** The callback of a task that waits for no read. */
  function Callback(id: SampleId, task: Task): Action
    requires !task.phase.Reading?
  {
    match task.phase
    case Created => BeginRead(id)
    case Read(_) => Then(id, 0.0)
    case Rejected => Catch(id)
    case Settled => Finally(id)
  }

  /** How many callbacks a task has before it waits for its read or is gone. */
  function Left(s: Sampler, id: SampleId): nat {
    if id !in s.tasks then 0
    else match s.tasks[id].phase
      case Created => 4
      case Read(_) => 3
      case Rejected => 2
      case Settled => 1
      case Reading => 0
  }

  lemma CallbackStep(s: Sampler, id: SampleId)
    requires id in s.tasks && !s.tasks[id].phase.Reading? && !s.stopped
    ensures var t := Step(s, Callback(id, s.tasks[id]));
            && !t.stopped && Left(t, id) < Left(s, id) && t.tasks.Keys <= s.tasks.Keys
            && forall k | k != id :: Left(t, k) == Left(s, k)
  {
    hide Recorded, Missed, Recordable, SourceOf;
  }

  lemma RunCallback(actions: seq<Action>, ids: set<SampleId>, id: SampleId) returns (a: Action)
    requires !Run(actions).stopped && Run(actions).tasks.Keys <= ids
    requires id in Run(actions).tasks && !Run(actions).tasks[id].phase.Reading?
    ensures Endless([a]) && var t := Run(actions + [a]);
            !t.stopped && t.tasks.Keys <= ids && Total(t, ids) < Total(Run(actions), ids)
  {
    var s := Run(actions);
    a := Callback(id, s.tasks[id]);
    assert Endless([a]);
    hide *;
    RunMore(actions, [], a);
    assert actions + [] == actions && [] + [a] == [a];
    CallbackStep(s, id);
    TotalLess(s, Run(actions + [a]), ids, id);
  }

  /** The waiting callbacks run. */
  lemma {:induction false} Quieten(actions: seq<Action>, ids: set<SampleId>) returns (more: seq<Action>)
    requires !Run(actions).stopped && Run(actions).tasks.Keys <= ids
    ensures Endless(more) && !Run(actions + more).stopped && Quiet(Run(actions + more))
    decreases Total(Run(actions), ids)
  {
    hide Run, Total;
    if id :| id in Run(actions).tasks && !Run(actions).tasks[id].phase.Reading? {
      hide *;
      var a := RunCallback(actions, ids, id);
      more := Quieten(actions + [a], ids);
      EndlessBoth([a], more);
      assert actions + [a] + more == actions + ([a] + more);
      more := [a] + more;
    } else {
      more := [];
      assert actions + more == actions;
    }
  }

  ghost function Total(s: Sampler, ids: set<SampleId>): nat
    decreases |ids|
  {
    if ids == {} then 0
    else
      var id :| id in ids;
      Left(s, id) + Total(s, ids - {id})
  }

  lemma {:induction false} TotalSplit(s: Sampler, ids: set<SampleId>, id: SampleId)
    requires id in ids
    ensures Total(s, ids) == Left(s, id) + Total(s, ids - {id})
    decreases |ids|
  {
    hide Left;
    var x :| x in ids && Total(s, ids) == Left(s, x) + Total(s, ids - {x});
    if x != id {
      TotalSplit(s, ids - {x}, id);
      TotalSplit(s, ids - {id}, x);
      assert ids - {x} - {id} == ids - {id} - {x};
    }
  }

  lemma {:induction false} TotalSame(s: Sampler, t: Sampler, ids: set<SampleId>)
    requires forall k | k in ids :: Left(t, k) == Left(s, k)
    ensures Total(t, ids) == Total(s, ids)
    decreases |ids|
  {
    hide Left;
    if ids != {} {
      var x :| x in ids;
      TotalSplit(s, ids, x);
      TotalSplit(t, ids, x);
      TotalSame(s, t, ids - {x});
    }
  }

  lemma TotalLess(s: Sampler, t: Sampler, ids: set<SampleId>, id: SampleId)
    requires id in ids && Left(t, id) < Left(s, id) && forall k | k != id :: Left(t, k) == Left(s, k)
    ensures Total(t, ids) < Total(s, ids)
  {
    hide Left;
    TotalSplit(s, ids, id);
    TotalSplit(t, ids, id);
    TotalSame(s, t, ids - {id});
  }

  /** The sample is the last of the history, and its gauges show it. */
  predicate ShowsSample(s: Sampler, source: BacklogSource, sample: Sample, at: real) {
    && s.resolved != [] && s.resolved[|s.resolved| - 1].source == source && s.resolved[|s.resolved| - 1].good
    && match sample
       case OutboxCount(count) => s.gauges.pending == count && s.gauges.outbox == Health(1, at)
       case QueueDepth(depth) => s.gauges.queue == depth && s.gauges.sqs == Health(1, at)
  }

  lemma ReadIsShown(s: Sampler, id: SampleId, sample: Sample, at: real)
    requires id in s.tasks && s.tasks[id].phase.Reading? && !s.tasks[id].aborted && !s.stopped
    requires s.tasks[id].source == SourceOf(sample) && Recordable(sample)
    ensures ShowsSample(Step(Step(s, ReadSucceeds(id, sample)), Then(id, at)), SourceOf(sample), sample, at)
  {
    hide Recordable;
  }

  lemma ReadingIsShown(actions: seq<Action>, id: SampleId, sample: Sample, at: real) returns (more: seq<Action>)
    requires var s := Run(actions);
             id in s.tasks && s.tasks[id].phase.Reading? && !s.tasks[id].aborted && !s.stopped &&
             s.tasks[id].source == SourceOf(sample)
    requires Recordable(sample)
    ensures Endless(more) && ShowsSample(Run(actions + more), SourceOf(sample), sample, at)
  {
    more := [ReadSucceeds(id, sample), Then(id, at)];
    assert Endless(more);
    hide *;
    RunTwo(actions, ReadSucceeds(id, sample), Then(id, at));
    ReadIsShown(Run(actions), id, sample, at);
  }

  lemma Begins(s: Sampler, id: SampleId)
    requires id in s.waiting && !s.stopped && Quiet(s)
    ensures var t := Step(Step(s, NextSample(id)), BeginRead(s.nextId));
            && s.nextId in t.tasks && t.tasks[s.nextId].phase.Reading? && !t.tasks[s.nextId].aborted && !t.stopped
            && t.tasks[s.nextId].source == s.waiting[id]
  {
    hide Quiet;
  }

  lemma WaitingIsShown(actions: seq<Action>, id: SampleId, sample: Sample, at: real) returns (more: seq<Action>)
    requires var s := Run(actions); id in s.waiting && s.waiting[id] == SourceOf(sample) && Quiet(s) && !s.stopped
    requires Recordable(sample)
    ensures Endless(more) && ShowsSample(Run(actions + more), SourceOf(sample), sample, at)
  {
    var s := Run(actions);
    var begin := [NextSample(id), BeginRead(s.nextId)];
    assert Endless(begin);
    hide *;
    RunTwo(actions, NextSample(id), BeginRead(s.nextId));
    Begins(s, id);
    more := ReadingIsShown(actions + begin, s.nextId, sample, at);
    EndlessBoth(begin, more);
    assert actions + begin + more == actions + (begin + more);
    more := begin + more;
  }

  lemma GivesUp(s: Sampler, id: SampleId)
    requires id in s.tasks && s.tasks[id].phase.Reading? && !s.stopped && Quiet(s)
    ensures var t := Step(Step(Step(s, ReadFails(id)), Catch(id)), Finally(id));
            id in t.waiting && t.waiting[id] == s.tasks[id].source && !t.stopped && Quiet(t)
  {
    hide Missed;
  }

  lemma AbortedIsShown(actions: seq<Action>, id: SampleId, sample: Sample, at: real) returns (more: seq<Action>)
    requires var s := Run(actions);
             id in s.tasks && s.tasks[id].phase.Reading? && !s.stopped && s.tasks[id].source == SourceOf(sample) &&
             Quiet(s)
    requires Recordable(sample)
    ensures Endless(more) && ShowsSample(Run(actions + more), SourceOf(sample), sample, at)
  {
    var end := [ReadFails(id), Catch(id), Finally(id)];
    assert Endless(end);
    hide *;
    GivesUp(Run(actions), id);
    RunThree(actions, ReadFails(id), Catch(id), Finally(id));
    more := WaitingIsShown(actions + end, id, sample, at);
    EndlessBoth(end, more);
    assert actions + end + more == actions + (end + more);
    more := end + more;
  }

  /** Whatever has happened before, until stop a good read of either source can still be shown: no sample that hangs,
      fails, is refused or is aborted ends the sampling. */
  lemma GoodReadIsShown(actions: seq<Action>, sample: Sample, at: real)
    requires !Run(actions).stopped && Recordable(sample)
    ensures exists more :: Endless(more) && ShowsSample(Run(actions + more), SourceOf(sample), sample, at)
  {
    hide Run, Quiet, Recordable, ShowsSample, One;
    var quiet := Quieten(actions, Run(actions).tasks.Keys);
    var s := Run(actions + quiet);
    OneSampleEach(actions + quiet, SourceOf(sample));
    var id :| Holders(s, SourceOf(sample)) == {id};
    assert id in Holders(s, SourceOf(sample));
    var more;
    if id in s.waiting && s.waiting[id] == SourceOf(sample) {
      more := WaitingIsShown(actions + quiet, id, sample, at);
    } else {
      assert s.tasks[id].phase.Reading? by { QuietReads(s, id); }
      more := AbortedIsShown(actions + quiet, id, sample, at);
    }
    assert actions + quiet + more == actions + (quiet + more);
    assert Endless(quiet + more);
  }

  lemma QuietReads(s: Sampler, id: SampleId)
    requires Quiet(s) && id in s.tasks
    ensures s.tasks[id].phase.Reading?
  {
  }

  /** A sample reads if and only if it has not been aborted before its first callback. */
  lemma ReadBeginsIff(actions: seq<Action>, id: SampleId)
    requires id in Run(actions).tasks && Run(actions).tasks[id].phase.Created?
    ensures var s, t := Run(actions), Run(actions + [BeginRead(id)]);
            && t == s.(tasks := t.tasks) && id in t.tasks
            && (t.tasks[id].phase.Reading? <==> !s.tasks[id].aborted)
            && (t.tasks[id].phase.Rejected? <==> s.tasks[id].aborted)
  {
    RunMore(actions, [], BeginRead(id));
    assert actions + [] == actions && [] + [BeginRead(id)] == [BeginRead(id)];
    hide Run;
  }

  // ---- the callbacks as the program runs them ----

  class Loop {
    const metrics: Metrics
    var stopped: bool
    var nextId: SampleId
    var tasks: map<SampleId, Task>
    var waiting: map<SampleId, BacklogSource>
    ghost var resolved: seq<Resolution>

    ghost function State(): Sampler
      reads this, metrics
    {
      Sampler(stopped, nextId, tasks, waiting, metrics.Values(), resolved)
    }

    constructor ()
      ensures State() == Start && fresh(metrics)
    {
      metrics := new Metrics();
      stopped, nextId, tasks, waiting, resolved := false, 0, map[], map[], [];
      new;
      StartSample(Outbox);
      StartSample(Sqs);
    }

    /** `run` up to the first await of its task. */
    method StartSample(source: BacklogSource)
      modifies this
      ensures State() == Begin(old(State()), source)
    {
      if stopped {
        return;
      }
      tasks := tasks[nextId := Task(source, Created, true, false, false)];
      nextId := nextId + 1;
    }

    method Failure(id: SampleId)
      requires id in tasks
      modifies this, metrics
      ensures State() == Fail(old(State()), id, old(tasks[id]))
    {
      if stopped || tasks[id].failed {
        assert tasks == tasks[id := tasks[id]];
        return;
      }
      tasks := tasks[id := tasks[id].(failed := true)];
      metrics.RecordFailure(tasks[id].source);
      resolved := resolved + [Resolution(id, tasks[id].source, false, Nowhere, 0.0)];
    }

    method OnDeadline(id: SampleId)
      requires Quiet(State()) && id in tasks && tasks[id].deadline
      modifies this, metrics
      ensures State() == Step(old(State()), Deadline(id))
    {
      tasks := tasks[id := tasks[id].(deadline := false, aborted := true)];
      Failure(id);
      assert State() == Step(old(State()), Deadline(id)) by {
        assert old(tasks)[id := tasks[id]] ==
               old(tasks)[id := old(tasks[id]).(deadline := false, aborted := true)][id := tasks[id]];
      }
    }

    method OnRead(id: SampleId, at: real)
      requires id in tasks && tasks[id].phase.Read?
      modifies this, metrics
      ensures State() == Step(old(State()), Then(id, at))
    {
      var task := tasks[id];
      tasks := tasks[id := task.(phase := Settled)];
      if !stopped && !task.aborted {
        var ok;
        match task.phase.sample {
          case OutboxCount(count) => ok := metrics.RecordOutbox(count, at);
          case QueueDepth(depth) => ok := metrics.RecordQueue(depth, at);
        }
        if ok {
          resolved := resolved + [Resolution(id, task.source, true, task.phase.sample, at)];
        } else {
          tasks := tasks[id := task.(phase := Rejected)];
          assert tasks == old(tasks)[id := task.(phase := Rejected)];
        }
      }
    }

    method OnRejected(id: SampleId)
      requires id in tasks && tasks[id].phase.Rejected?
      modifies this, metrics
      ensures State() == Step(old(State()), Catch(id))
    {
      tasks := tasks[id := tasks[id].(phase := Settled)];
      Failure(id);
      assert State() == Step(old(State()), Catch(id)) by {
        assert old(tasks)[id := tasks[id]] == old(tasks)[id := old(tasks[id]).(phase := Settled)][id := tasks[id]];
      }
    }

    method OnSettled(id: SampleId)
      requires id in tasks && tasks[id].phase.Settled?
      modifies this
      ensures State() == Step(old(State()), Finally(id))
    {
      var source := tasks[id].source;
      tasks := tasks - {id};
      if stopped {
        return;
      }
      waiting := waiting[id := source];
    }

    method OnNext(id: SampleId)
      requires Quiet(State()) && id in waiting
      modifies this
      ensures State() == Step(old(State()), NextSample(id))
    {
      var source := waiting[id];
      waiting := waiting - {id};
      StartSample(source);
    }

    /** Clears every timer, then aborts every controller. */
    method StopSampling()
      modifies this
      ensures State() == Step(old(State()), Stop)
    {
      stopped := true;
      waiting := map[];
      var rest := tasks.Keys;
      while rest != {}
        invariant rest <= tasks.Keys == old(tasks).Keys
        invariant forall id | id in tasks :: tasks[id] ==
                    if id in rest then old(tasks)[id] else old(tasks)[id].(deadline := false, aborted := true)
        invariant stopped && waiting == map[] && nextId == old(nextId) && resolved == old(resolved)
        decreases |rest|
      {
        var id :| id in rest;
        tasks := tasks[id := tasks[id].(deadline := false, aborted := true)];
        rest := rest - {id};
      }
      assert tasks == Stopped(old(State())).tasks;
    }
  }
}
