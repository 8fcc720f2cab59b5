/** packages/worker/src/delivery/circuit-breaker.ts: the breaker of one destination, kept in a Redis
    hash that expires. Times are milliseconds greater than zero on one monotone clock. Recording an
    outcome reads the hash, takes the time, and sets and expires the key, each at its own moment; one
    record follows the other. */
module CircuitBreaker {
  import opened Common
  import opened Store

  datatype CircuitState = Closed | Open | HalfOpen
  datatype Config = Config(failureThreshold: int, cooldownMs: int)
  datatype Snapshot = Snapshot(state: CircuitState, failureCount: int, openedAt: Option<int>, halfOpenInFlight: bool)
  datatype Decision = Decision(allowed: bool, state: CircuitState, delayMs: int)

  function ApplyFailure(current: Snapshot, now: int, c: Config): Snapshot {
    if current.state.Open? then
      Snapshot(Open, current.failureCount, if current.openedAt.Some? then current.openedAt else Some(now), false)
    else if current.state.HalfOpen? || current.failureCount + 1 >= c.failureThreshold then
      Snapshot(Open, c.failureThreshold, Some(now), false)
    else
      Snapshot(Closed, current.failureCount + 1, None, false)
  }

  function ApplySuccess(): Snapshot { Snapshot(Closed, 0, None, false) }

  function CircuitDecision(current: Snapshot, now: int, c: Config): Decision {
    match current.state
    case Open =>
      var openedAt := if current.openedAt.Some? then current.openedAt.value else now;
      var remaining := c.cooldownMs - (now - openedAt);
      if remaining > 0 then Decision(false, Open, remaining) else Decision(true, HalfOpen, 0)
    case HalfOpen => Decision(!current.halfOpenInFlight, HalfOpen, 0)
    case Closed => Decision(true, Closed, 0)
  }

  /** A failure leaves the breaker open if and only if it was not closed or reaches the threshold. One that was open
      keeps its opening time and its count; any other that opens does so now. */
  lemma FailureOpensIff(current: Snapshot, now: int, c: Config)
    ensures var next := ApplyFailure(current, now, c);
            && (next.state.Open? <==> !current.state.Closed? || current.failureCount >= c.failureThreshold - 1)
            && (next.state.Closed? <==> current.state.Closed? && current.failureCount < c.failureThreshold - 1)
            && (next.openedAt.Some? <==> next.state.Open?) && !next.halfOpenInFlight
            && (current.state.Open? ==> next.failureCount == current.failureCount &&
                                        (current.openedAt.Some? ==> next.openedAt == current.openedAt))
            && (next.state.Open? && !(current.state.Open? && current.openedAt.Some?) ==> next.openedAt == Some(now))
            && (next.state.Open? && !current.state.Open? ==> next.failureCount == c.failureThreshold)
            && (next.state.Closed? ==> next.failureCount - current.failureCount == 1)
  {
  }

  /** A closed breaker allows; an open one from the end of its cooldown on, which the advertised delay tells
      exactly; a half-open one unless a probe is in flight. */
  lemma AllowedAfterDelay(current: Snapshot, now: int, wait: nat, c: Config)
    ensures var d, later := CircuitDecision(current, now, c), CircuitDecision(current, now + wait, c);
            && (current.state.Closed? ==> d.allowed && d.state.Closed?)
            && (current.state.HalfOpen? ==> (d.allowed <==> !current.halfOpenInFlight) && d.state.HalfOpen?)
            && (current.state.Open? ==> (d.state.HalfOpen? <==> d.allowed) && (d.state.Open? <==> !d.allowed))
            && (d.delayMs > 0 <==> current.state.Open? && !d.allowed) && d.delayMs >= 0
            && (current.state.Open? && current.openedAt.Some? && !d.allowed ==>
                  (later.allowed <==> wait >= d.delayMs) && now + d.delayMs == current.openedAt.value + c.cooldownMs)
            && (current.state.Open? && current.openedAt.Some? ==>
                  (d.allowed <==> now >= current.openedAt.value + c.cooldownMs))
            && (current.state.Open? && current.openedAt.None? ==> (later.allowed <==> c.cooldownMs <= 0))
  {
  }

  // ---- the Redis hash ----

  /** The fields of the hash that are present. `openedAt` is stored as text, and 0 or nothing as "". */
  datatype Hash = Hash(state: Option<CircuitState>, failureCount: Option<int>, openedAt: Option<int>,
                       halfOpenInFlight: Option<bool>)

  /** A key without `expiresAt` never expires. */
  datatype Key = Key(hash: Hash, expiresAt: Option<int>)

  /** EXPIRE key max(1, ceil(cooldown / 1000)), in milliseconds. */
  function TimeToLive(c: Config): (ms: int)
    ensures ms >= 1000 && ms >= c.cooldownMs
  {
    1000 * Max(1, CeilSeconds(c.cooldownMs))
  }

  function Live(key: Option<Key>, now: int): Option<Key> {
    if key.Some? && key.value.expiresAt.Some? && now >= key.value.expiresAt.value then None else key
  }

  function Parse(h: Hash): Snapshot {
    Snapshot(if h.state.Some? then h.state.value else Closed,
             if h.failureCount.Some? then h.failureCount.value else 0,
             h.openedAt,
             h.halfOpenInFlight == Some(true))
  }

  /** readCircuitState */
  function Read(key: Option<Key>, now: int): Snapshot {
    var live := Live(key, now);
    if live.None? then Snapshot(Closed, 0, None, false) else Parse(live.value.hash)
  }

  /** HSET of all four fields: an existing key keeps its expiry. */
  function Set(key: Option<Key>, s: Snapshot, at: int): Key {
    var live := Live(key, at);
    Key(Hash(Some(s.state), Some(s.failureCount),
             if s.openedAt == Some(0) then None else s.openedAt, Some(s.halfOpenInFlight)),
        if live.Some? then live.value.expiresAt else None)
  }

  /** What is written is read back, but for an opening time of zero. */
  lemma WrittenIsRead(key: Option<Key>, s: Snapshot, at: int)
    ensures Parse(Set(key, s, at).hash) == s <==> s.openedAt != Some(0)
    ensures s.openedAt == Some(0) ==> Parse(Set(key, s, at).hash) == s.(openedAt := None)
  {
  }

  /** EXPIRE of a key that is there. */
  function Expire(key: Option<Key>, at: int, c: Config): Option<Key> {
    var live := Live(key, at);
    if live.Some? then Some(live.value.(expiresAt := Some(at + TimeToLive(c)))) else None
  }

  /** The mark handleMessage sets when it lets a probe through: HSET of one field, which creates a key
      without expiry when the old one is gone. */
  function Mark(key: Option<Key>, at: int): Key {
    var live := Live(key, at);
    if live.None? then Key(Hash(None, None, None, Some(true)), None)
    else live.value.(hash := live.value.hash.(halfOpenInFlight := Some(true)))
  }

  class CircuitStore {
    var key: Option<Key>

    constructor ()
      ensures key.None?
    {
      key := None;
    }

    /** writeCircuitState: two commands, the second one perhaps later. */
    method WriteCircuitState(next: Snapshot, write: int, expire: int, c: Config)
      modifies this
      ensures key == Expire(Some(Set(old(key), next, write)), expire, c)
    {
      key := Some(Set(key, next, write));
      key := Expire(key, expire, c);
    }

    method RecordDeliveryFailure(call: Call, c: Config) returns (next: Snapshot)
      requires call.failed
      modifies this
      ensures next == ApplyFailure(Read(old(key), call.read), call.stamp, c)
      ensures key == AfterEvent(c, old(key), Records(call))
    {
      var current := Read(key, call.read);
      next := ApplyFailure(current, call.stamp, c);
      WriteCircuitState(next, call.write, call.expire, c);
    }

    method RecordDeliverySuccess(call: Call, c: Config) returns (next: Snapshot)
      requires !call.failed
      modifies this
      ensures next == ApplySuccess()
      ensures key == AfterEvent(c, old(key), Records(call))
    {
      next := ApplySuccess();
      WriteCircuitState(next, call.write, call.expire, c);
    }

    method MarkProbe(at: int, c: Config)
      modifies this
      ensures key == AfterEvent(c, old(key), Marks(at))
    {
      key := Some(Mark(key, at));
    }
  }

  // ---- history ----

  /** One call of recordDeliveryFailure or recordDeliverySuccess: when HGETALL was answered, what
      Date.now() then was, and when HSET and EXPIRE took effect. */
  datatype Call = Call(failed: bool, read: int, stamp: int, write: int, expire: int)

  datatype Event = Records(call: Call) | Marks(at: int)

  function Begin(e: Event): int { if e.Marks? then e.at else e.call.read }
  function End(e: Event): int { if e.Marks? then e.at else e.call.expire }

  /** What a call makes of what it read. */
  function Next(c: Config, current: Snapshot, call: Call): Snapshot {
    if call.failed then ApplyFailure(current, call.stamp, c) else ApplySuccess()
  }

  function AfterEvent(c: Config, key: Option<Key>, e: Event): Option<Key> {
    match e
    case Records(call) =>
      Expire(Some(Set(key, Next(c, Read(key, call.read), call), call.write)), call.expire, c)
    case Marks(at) => Some(Mark(key, at))
  }

  function Run(c: Config, history: seq<Event>): Option<Key> {
    if history == [] then None
    else AfterEvent(c, Run(c, history[..|history| - 1]), history[|history| - 1])
  }

  predicate InTime(call: Call) {
    0 < call.read <= call.stamp <= call.write <= call.expire
  }

  predicate Ordered(history: seq<Event>) {
    forall i | 0 <= i < |history| ::
      && 0 < Begin(history[i]) && (history[i].Records? ==> InTime(history[i].call))
      && forall j | 0 <= j < i :: End(history[j]) <= Begin(history[i])
  }

  /** When the last event was over. */
  function Now(history: seq<Event>): int {
    if history == [] then 0 else End(history[|history| - 1])
  }

  /** The record of a call is lost when the key still had the expiry of the record before it at its HSET,
      and no longer existed at its EXPIRE. */
  predicate Lost(c: Config, outcomes: seq<Call>, call: Call) {
    outcomes != [] && call.write < outcomes[|outcomes| - 1].expire + TimeToLive(c) <= call.expire
  }

  /** The outcomes whose records were not lost; probes only set a mark. */
  function Outcomes(c: Config, history: seq<Event>): seq<Call> {
    if history == [] then []
    else
      var before, last := Outcomes(c, history[..|history| - 1]), history[|history| - 1];
      if last.Marks? || Lost(c, before, last.call) then before else before + [last.call]
  }

  /** Outcome `j` found the record of the one before it. */
  predicate Joined(c: Config, outcomes: seq<Call>, j: nat)
    requires 0 < j < |outcomes|
  {
    outcomes[j].read - outcomes[j - 1].expire < TimeToLive(c)
  }

  /** From `i` on there are only failures, without a success and without a gap. */
  ghost predicate UnbrokenFrom(c: Config, outcomes: seq<Call>, i: nat) {
    && i <= |outcomes|
    && (forall j | i <= j < |outcomes| :: outcomes[j].failed)
    && (forall j | i < j < |outcomes| :: Joined(c, outcomes, j))
  }

  function StreakStart(c: Config, outcomes: seq<Call>): (i: nat)
    ensures i <= |outcomes|
  {
    var n := |outcomes|;
    if n == 0 || !outcomes[n - 1].failed then n
    else if n == 1 || !Joined(c, outcomes, n - 1) then n - 1
    else StreakStart(c, outcomes[..n - 1])
  }

  /** The current streak is the longest unbroken run of failures up to the last outcome. */
  lemma {:induction false} StreakIsLongest(c: Config, outcomes: seq<Call>, i: nat)
    requires i <= |outcomes|
    ensures UnbrokenFrom(c, outcomes, i) <==> i >= StreakStart(c, outcomes)
  {
    var n := |outcomes|;
    if n > 0 && i < n {
      var front := outcomes[..n - 1];
      StreakIsLongest(c, front, i);
      assert forall j | 0 < j < n - 1 :: Joined(c, front, j) <==> Joined(c, outcomes, j);
      assert forall j | 0 <= j < n - 1 :: front[j] == outcomes[j];
      if UnbrokenFrom(c, outcomes, i) {
        assert outcomes[n - 1].failed && (i < n - 1 ==> Joined(c, outcomes, n - 1));
        assert UnbrokenFrom(c, front, i);
      }
    }
  }

  // ---- what is read back ----

  /** How many failures open the breaker. */
  function Opening(c: Config): nat { Max(1, c.failureThreshold) }

  /** The number of failures in the current streak. */
  function Streak(c: Config, outcomes: seq<Call>): nat {
    |outcomes| - StreakStart(c, outcomes)
  }

  /** The stamp of the failure that opened the breaker. */
  function OpenedAt(c: Config, outcomes: seq<Call>): int
    requires Streak(c, outcomes) >= Opening(c)
  {
    outcomes[StreakStart(c, outcomes) + Opening(c) - 1].stamp
  }

  /** Closed with the length of the streak, or open since the failure that reached the threshold. */
  function Recorded(c: Config, outcomes: seq<Call>): Snapshot {
    if Streak(c, outcomes) < Opening(c) then Snapshot(Closed, Streak(c, outcomes), None, false)
    else Snapshot(Open, c.failureThreshold, Some(OpenedAt(c, outcomes)), false)
  }

  /** The last record has expired, counted from its EXPIRE. */
  predicate Expired(c: Config, outcomes: seq<Call>, now: int) {
    outcomes == [] || now - outcomes[|outcomes| - 1].expire >= TimeToLive(c)
  }

  predicate SameState(s: Snapshot, t: Snapshot) {
    s.state == t.state && s.failureCount == t.failureCount && s.openedAt == t.openedAt
  }

  const Unwritten := Snapshot(Closed, 0, None, false)

  function Known(c: Config, outcomes: seq<Call>, now: int): Snapshot {
    if Expired(c, outcomes, now) then Unwritten else Recorded(c, outcomes)
  }

  /** The key after a history that was over at `time`: the record of the last outcome with its expiry,
      nothing, or what a probe left behind once that record was gone. */
  ghost predicate KeyIs(c: Config, outcomes: seq<Call>, key: Option<Key>, time: int) {
    || (key.None? && Expired(c, outcomes, time))
    || (&& key.Some? && outcomes != []
        && key.value.expiresAt == Some(outcomes[|outcomes| - 1].expire + TimeToLive(c))
        && SameState(Parse(key.value.hash), Recorded(c, outcomes)))
    || (&& key.Some? && Expired(c, outcomes, time)
        && key.value.expiresAt == None && SameState(Parse(key.value.hash), Unwritten))
  }

  lemma ReadOfKey(c: Config, outcomes: seq<Call>, key: Option<Key>, time: int, now: int)
    requires KeyIs(c, outcomes, key, time) && time <= now
    ensures SameState(Read(key, now), Known(c, outcomes, now))
  {
    hide Recorded;
  }

  /** One more failure of a streak leaves its beginning and its opening failure where they were. */
  lemma StreakGoesOn(c: Config, outcomes: seq<Call>, call: Call)
    requires call.failed && !Expired(c, outcomes, call.read)
    ensures Streak(c, outcomes + [call]) == Streak(c, outcomes) + 1
    ensures Streak(c, outcomes) >= Opening(c) ==> OpenedAt(c, outcomes + [call]) == OpenedAt(c, outcomes)
  {
    var after := outcomes + [call];
    assert after[..|outcomes|] == outcomes && Joined(c, after, |outcomes|);
    assert StreakStart(c, after) == StreakStart(c, outcomes);
  }

  lemma StreakBegins(c: Config, outcomes: seq<Call>, call: Call)
    requires call.failed && Expired(c, outcomes, call.read)
    ensures Streak(c, outcomes + [call]) == 1
  {
    assert (outcomes + [call])[..|outcomes|] == outcomes;
  }

  lemma SuccessEnds(c: Config, outcomes: seq<Call>, call: Call)
    requires !call.failed
    ensures Streak(c, outcomes + [call]) == 0
  {
  }

  /** A failure joins the streak or begins a new one; a success ends it. */
  lemma NextIs(c: Config, outcomes: seq<Call>, current: Snapshot, call: Call)
    requires SameState(current, Known(c, outcomes, call.read))
    ensures SameState(Next(c, current, call), Recorded(c, outcomes + [call]))
  {
    var all := outcomes + [call];
    if !call.failed {
      SuccessEnds(c, outcomes, call);
    } else if Expired(c, outcomes, call.read) {
      StreakBegins(c, outcomes, call);
      assert Opening(c) == 1 ==> OpenedAt(c, all) == call.stamp;
    } else {
      StreakGoesOn(c, outcomes, call);
      assert Streak(c, all) == Opening(c) ==> OpenedAt(c, all) == call.stamp;
    }
    hide Streak, OpenedAt, Expired;
  }

  lemma OpenedLater(c: Config, outcomes: seq<Call>)
    requires forall o | o in outcomes :: 0 < o.stamp
    ensures Streak(c, outcomes) >= Opening(c) ==> OpenedAt(c, outcomes) > 0
  {
    if Streak(c, outcomes) >= Opening(c) {
      assert outcomes[StreakStart(c, outcomes) + Opening(c) - 1] in outcomes;
    }
  }

  /** The key after HSET and EXPIRE. */
  lemma CallKey(c: Config, outcomes: seq<Call>, key: Option<Key>, time: int, call: Call)
    requires KeyIs(c, outcomes, key, time) && time <= call.read && InTime(call)
    requires forall o | o in outcomes :: 0 < o.stamp
    ensures KeyIs(c, if Lost(c, outcomes, call) then outcomes else outcomes + [call],
                  AfterEvent(c, key, Records(call)), call.expire)
    ensures AfterEvent(c, key, Records(call)).None? <==> Lost(c, outcomes, call)
  {
    var current, all := Read(key, call.read), outcomes + [call];
    ReadOfKey(c, outcomes, key, time, call.read);
    NextIs(c, outcomes, current, call);
    OpenedLater(c, all);
    assert all[|all| - 1] == call;
    hide ApplyFailure, Read, Streak, OpenedAt;
  }

  lemma {:induction false} RunKey(c: Config, history: seq<Event>)
    requires Ordered(history)
    ensures KeyIs(c, Outcomes(c, history), Run(c, history), Now(history))
    ensures forall o | o in Outcomes(c, history) :: Records(o) in history && 0 < o.stamp
  {
    if history != [] {
      var before, last := history[..|history| - 1], history[|history| - 1];
      RunKey(c, before);
      assert Now(before) <= Begin(last);
      hide KeyIs, Lost;
      match last {
        case Records(call) => CallKey(c, Outcomes(c, before), Run(c, before), Now(before), call);
        case Marks(at) => ProbeKeeps(c, Outcomes(c, before), Run(c, before), Now(before), at);
      }
      hide Run, AfterEvent;
    }
  }

  lemma ProbeKeeps(c: Config, outcomes: seq<Call>, key: Option<Key>, time: int, t: int)
    requires KeyIs(c, outcomes, key, time) && time <= t
    ensures KeyIs(c, outcomes, Some(Mark(key, t)), t)
  {
    hide Recorded;
  }

  /** What is read back is determined by the history: the streak while the last record lives, and a
      closed breaker without failures afterwards. */
  lemma ReadIsHistory(c: Config, history: seq<Event>, now: int)
    requires Ordered(history) && Now(history) <= now
    ensures SameState(Read(Run(c, history), now), Known(c, Outcomes(c, history), now))
  {
    RunKey(c, history);
    ReadOfKey(c, Outcomes(c, history), Run(c, history), Now(history), now);
  }

  /** A record clears the mark of a probe. */
  lemma RecordClears(c: Config, key: Option<Key>, call: Call, now: int)
    ensures !Read(AfterEvent(c, key, Records(call)), now).halfOpenInFlight
  {
  }

  /** The mark of a probe is read back if and only if nothing has been recorded since and the record that it was set
      on, if there was one, has not expired; a mark set on no record stays for ever. */
  lemma MarkIsRead(c: Config, history: seq<Event>, now: int)
    requires Ordered(history) && Now(history) <= now
    ensures Read(Run(c, history), now).halfOpenInFlight <==>
            history != [] && history[|history| - 1].Marks? &&
            (Expired(c, Outcomes(c, history), history[|history| - 1].at) || !Expired(c, Outcomes(c, history), now))
  {
    if history != [] {
      var n := |history| - 1;
      OrderedFront(history);
      RunKey(c, history[..n]);
      if history[n].Records? {
        RecordClears(c, Run(c, history[..n]), history[n].call, now);
      }
      hide Recorded, Ordered, ApplyFailure;
    }
  }

  /** An outcome leaves no record at all if and only if the record before it expires between its HSET
      and its EXPIRE. */
  lemma RecordLostIff(c: Config, history: seq<Event>, call: Call)
    requires Ordered(history + [Records(call)])
    ensures Run(c, history + [Records(call)]).None? <==> Lost(c, Outcomes(c, history), call)
  {
    var all := history + [Records(call)];
    assert all[..|history|] == history && all[|history|] == Records(call);
    OrderedFront(all);
    RunKey(c, history);
    CallKey(c, Outcomes(c, history), Run(c, history), Now(history), call);
  }

  lemma OrderedFront(history: seq<Event>)
    requires history != [] && Ordered(history)
    ensures Ordered(history[..|history| - 1]) && Now(history[..|history| - 1]) <= Begin(history[|history| - 1])
  {
  }

  // ---- decisions ----

  /** getCircuitDecision at `now` on what was read at `read`. */
  function Decide(c: Config, history: seq<Event>, read: int, now: int): Decision {
    CircuitDecision(Read(Run(c, history), read), now, c)
  }

  /** The decision on what is read back, by the streak. */
  function Verdict(c: Config, outcomes: seq<Call>, read: int, now: int): Decision {
    if Expired(c, outcomes, read) || Streak(c, outcomes) < Opening(c) then Decision(true, Closed, 0)
    else if now < OpenedAt(c, outcomes) + c.cooldownMs
         then Decision(false, Open, OpenedAt(c, outcomes) + c.cooldownMs - now)
    else Decision(true, HalfOpen, 0)
  }

  lemma DecisionOf(c: Config, outcomes: seq<Call>, current: Snapshot, read: int, now: int)
    requires SameState(current, Known(c, outcomes, read))
    ensures CircuitDecision(current, now, c) == Verdict(c, outcomes, read, now)
  {
    hide StreakStart, Expired;
  }

  lemma DecisionIsVerdict(c: Config, history: seq<Event>, read: int, now: int)
    requires Ordered(history) && Now(history) <= read
    ensures Decide(c, history, read, now) == Verdict(c, Outcomes(c, history), read, now)
  {
    ReadIsHistory(c, history, read);
    DecisionOf(c, Outcomes(c, history), Read(Run(c, history), read), read, now);
    hide Verdict, Read, Run, CircuitDecision;
  }

  lemma {:induction false} OutcomesInTime(c: Config, history: seq<Event>)
    requires Ordered(history)
    ensures var outcomes := Outcomes(c, history);
            && (forall o | o in outcomes :: InTime(o) && o.expire <= Now(history))
            && (outcomes != [] ==> forall o | o in outcomes :: o.stamp <= outcomes[|outcomes| - 1].expire)
  {
    if history != [] {
      OrderedFront(history);
      OutcomesInTime(c, history[..|history| - 1]);
      hide Lost;
    }
  }

  /** The key outlives the cooldown. */
  lemma ExpiredIsPastCooldown(c: Config, history: seq<Event>, read: int)
    requires Ordered(history)
    requires Expired(c, Outcomes(c, history), read) && Streak(c, Outcomes(c, history)) >= Opening(c)
    ensures read >= OpenedAt(c, Outcomes(c, history)) + c.cooldownMs
  {
    var outcomes := Outcomes(c, history);
    OutcomesInTime(c, history);
    assert outcomes[StreakStart(c, outcomes) + Opening(c) - 1] in outcomes;
    hide StreakStart, Ordered, Outcomes;
  }

  /** A delivery is refused exactly inside the cooldown that began with the opening failure of the
      current streak, with exactly the time left; the expiry of the key never shortens it. */
  lemma RefusedWithinCooldown(c: Config, history: seq<Event>, read: int, now: int)
    requires Ordered(history) && Now(history) <= read <= now
    ensures var outcomes := Outcomes(c, history);
            var d := Decide(c, history, read, now);
            && (!d.allowed <==> Streak(c, outcomes) >= Opening(c) && now < OpenedAt(c, outcomes) + c.cooldownMs)
            && (!d.allowed ==> d == Decision(false, Open, OpenedAt(c, outcomes) + c.cooldownMs - now))
            && (d.allowed ==> d.delayMs == 0)
  {
    hide Ordered, Decide, Outcomes, OpenedAt, Expired, Streak, Opening;
    DecisionIsVerdict(c, history, read, now);
    var outcomes := Outcomes(c, history);
    if Streak(c, outcomes) >= Opening(c) && Expired(c, outcomes, read) {
      ExpiredIsPastCooldown(c, history, read);
    }
  }

  /** The decision lets a probe through. */
  predicate HalfOpenAt(c: Config, history: seq<Event>, read: int, now: int) {
    Ordered(history) && Now(history) <= read <= now && Decide(c, history, read, now).state.HalfOpen?
  }

  /** A probe is let through exactly when the record of the current streak was still read and its
      cooldown is over. */
  lemma HalfOpenIff(c: Config, history: seq<Event>, read: int, now: int)
    requires Ordered(history) && Now(history) <= read <= now
    ensures var outcomes := Outcomes(c, history);
            HalfOpenAt(c, history, read, now) <==>
            !Expired(c, outcomes, read) && Streak(c, outcomes) >= Opening(c)
                && now >= OpenedAt(c, outcomes) + c.cooldownMs
  {
    hide Ordered, Decide, Outcomes, OpenedAt, Expired, Streak, Opening;
    DecisionIsVerdict(c, history, read, now);
  }

  /** Only failures, each of which finds the record of the one before it and is not lost. */
  ghost predicate Failing(c: Config, history: seq<Event>, probes: seq<Call>) {
    forall i | 0 <= i < |probes| ::
      var before := Outcomes(c, history + Recordings(probes[..i]));
      probes[i].failed && !Expired(c, before, probes[i].read) && !Lost(c, before, probes[i])
  }

  function Recordings(calls: seq<Call>): (events: seq<Event>)
    ensures |events| == |calls| && forall i | 0 <= i < |calls| :: events[i] == Records(calls[i])
  {
    seq(|calls|, i requires 0 <= i < |calls| => Records(calls[i]))
  }

  lemma {:induction false} StreakKeepsOpening(c: Config, history: seq<Event>, probes: seq<Call>)
    requires Failing(c, history, probes) && Streak(c, Outcomes(c, history)) >= Opening(c)
    ensures var outcomes := Outcomes(c, history + Recordings(probes));
            && Streak(c, outcomes) >= Opening(c) && OpenedAt(c, outcomes) == OpenedAt(c, Outcomes(c, history))
  {
    hide Streak, OpenedAt, Opening, Expired, Lost, Failing;
    if probes == [] {
      assert history + Recordings(probes) == history;
    } else {
      var n := |probes| - 1;
      var all := history + Recordings(probes);
      assert all[..|all| - 1] == history + Recordings(probes[..n]) && all[|all| - 1] == Records(probes[n]);
      FailingLast(c, history, probes);
      StreakKeepsOpening(c, history, probes[..n]);
      StreakGoesOn(c, Outcomes(c, history + Recordings(probes[..n])), probes[n]);
    }
  }

  lemma FailingLast(c: Config, history: seq<Event>, probes: seq<Call>)
    requires probes != [] && Failing(c, history, probes)
    ensures var n := |probes| - 1; var before := Outcomes(c, history + Recordings(probes[..n]));
            && Failing(c, history, probes[..n])
            && probes[n].failed && !Expired(c, before, probes[n].read) && !Lost(c, before, probes[n])
  {
    hide Outcomes, Expired, Lost, Recordings;
    assert forall i | 0 <= i < |probes| - 1 :: probes[..|probes| - 1][..i] == probes[..i];
  }

  /** After the cooldown failing probes never open the breaker again, however many there are: as long as
      no success and no gap ends the streak, every delivery is allowed. */
  lemma FailedProbesDoNotReopen(c: Config, history: seq<Event>, first: int, probe: int, probes: seq<Call>,
                                read: int, now: int)
    requires HalfOpenAt(c, history, first, probe) && Failing(c, history, probes)
    requires Ordered(history + Recordings(probes)) && Now(history + Recordings(probes)) <= read <= now && probe <= now
    ensures Decide(c, history + Recordings(probes), read, now).allowed
  {
    hide Recordings, Failing, Outcomes, Streak, OpenedAt, Decide, Expired, Ordered;
    HalfOpenIff(c, history, first, probe);
    StreakKeepsOpening(c, history, probes);
    RefusedWithinCooldown(c, history + Recordings(probes), read, now);
  }

  // ---- when there are probes ----

  /** The last outcome opened the breaker: a delivery is a probe exactly from the end of the cooldown, which
      counts from the stamp, until the hash read has expired, which counts from the EXPIRE. */
  lemma ProbeWindow(c: Config, history: seq<Event>, read: int, now: int)
    requires Ordered(history) && Now(history) <= read <= now && Streak(c, Outcomes(c, history)) == Opening(c)
    ensures var outcomes := Outcomes(c, history); var opening := outcomes[|outcomes| - 1];
            HalfOpenAt(c, history, read, now) <==>
              opening.stamp + c.cooldownMs <= now && read < opening.expire + TimeToLive(c)
  {
    HalfOpenIff(c, history, read, now);
    hide HalfOpenAt, Outcomes, Ordered, StreakStart;
  }

  /** Failures are only recorded of deliveries that the breaker allows until then, as by one worker that
      handles one message after the other. */
  predicate Obedient(c: Config, history: seq<Event>) {
    forall i | 0 <= i < |history| && history[i].Records? && history[i].call.failed ::
      Decide(c, history[..i], history[i].call.read, history[i].call.read).allowed
  }

  predicate WholeSeconds(c: Config) {
    c.cooldownMs > 0 && c.cooldownMs % 1000 == 0
  }

  /** Event `k` opened the breaker. */
  predicate Opens(c: Config, history: seq<Event>, k: nat) {
    && k < |history| && history[k].Records?
    && Outcomes(c, history[..k + 1]) == Outcomes(c, history[..k]) + [history[k].call]
    && Streak(c, Outcomes(c, history[..k + 1])) == Opening(c)
  }

  lemma Prefix(c: Config, history: seq<Event>, n: nat)
    requires n <= |history| && Ordered(history)
    ensures Ordered(history[..n])
    ensures Obedient(c, history) ==> Obedient(c, history[..n])
    ensures forall k: nat | Opens(c, history[..n], k) :: Opens(c, history, k)
  {
    hide Outcomes, Streak, Opening, Decide;
    assert forall i | 0 <= i < n :: history[..n][..i] == history[..i] && history[..n][i] == history[i];
    forall k: nat | Opens(c, history[..n], k) ensures Opens(c, history, k) {
      assert history[..n][..k] == history[..k] && history[..n][..k + 1] == history[..k + 1];
    }
  }

  /** The EXPIRE of every opening takes effect at its stamp. */
  ghost predicate PromptOpenings(c: Config, history: seq<Event>) {
    forall k: nat | Opens(c, history, k) :: history[k].call.stamp == history[k].call.expire
  }

  /** A streak of the opening length has an opening event. */
  lemma {:induction false} OpeningExists(c: Config, history: seq<Event>)
    requires Ordered(history) && Streak(c, Outcomes(c, history)) >= Opening(c)
    ensures exists k: nat :: Opens(c, history, k)
  {
    if history != [] {
      var n := |history| - 1;
      var before, last := Outcomes(c, history[..n]), history[n];
      assert history[..n + 1] == history;
      Prefix(c, history, n);
      if Streak(c, before) >= Opening(c) {
        OpeningExists(c, history[..n]);
      } else {
        assert last.Records? && Outcomes(c, history) == before + [last.call];
        if !last.call.failed {
          SuccessEnds(c, before, last.call);
        } else if Expired(c, before, last.call.read) {
          StreakBegins(c, before, last.call);
        } else {
          StreakGoesOn(c, before, last.call);
        }
        hide Streak, Outcomes;
        assert Opens(c, history, n);
      }
    }
  }

  /** With a cooldown of whole seconds, when each opening's EXPIRE takes effect at its stamp: the key expires
      when the cooldown ends, and a decision at the moment of its read is never a probe. */
  lemma {:induction false} NeverHalfOpen(c: Config, history: seq<Event>, now: int)
    requires WholeSeconds(c) && Obedient(c, history) && PromptOpenings(c, history)
    ensures !HalfOpenAt(c, history, now, now)
  {
    if history != [] && Ordered(history) && Now(history) <= now {
      var n := |history| - 1;
      var before, last := history[..n], history[n];
      Prefix(c, history, n);
      OrderedFront(history);
      assert PromptOpenings(c, before);
      NeverHalfOpen(c, before, now);
      HalfOpenIff(c, history, now, now);
      HalfOpenIff(c, before, now, now);
      if Outcomes(c, history) != Outcomes(c, before) {
        NeverHalfOpen(c, before, last.call.read);
        NewOutcome(c, history);
        if Streak(c, Outcomes(c, history)) == Opening(c) {
          assert history[..n + 1] == history && Opens(c, history, n);
          ProbeWindow(c, history, now, now);
        }
      }
      hide Obedient, Ordered, HalfOpenAt, Outcomes, Streak, OpenedAt, Expired;
    }
  }

  /** An obedient failure that finds no probe opens the breaker at most. */
  lemma NewOutcome(c: Config, history: seq<Event>)
    requires history != [] && Ordered(history) && Obedient(c, history)
    requires var before, last := history[..|history| - 1], history[|history| - 1];
             && Outcomes(c, history) != Outcomes(c, before)
             && (last.Records? ==> !HalfOpenAt(c, before, last.call.read, last.call.read))
    ensures Streak(c, Outcomes(c, history)) <= Opening(c)
  {
    var n := |history| - 1;
    var before, call := history[..n], history[n].call;
    OrderedFront(history);
    if call.failed {
      assert Decide(c, before, call.read, call.read).allowed;
      HalfOpenIff(c, before, call.read, call.read);
      RefusedWithinCooldown(c, before, call.read, call.read);
      if Expired(c, Outcomes(c, before), call.read) {
        StreakBegins(c, Outcomes(c, before), call);
      } else {
        StreakGoesOn(c, Outcomes(c, before), call);
      }
    } else {
      SuccessEnds(c, Outcomes(c, before), call);
    }
    hide Decide, HalfOpenAt, Streak, OpenedAt, Expired, Ordered, Obedient;
  }

  /** At some moment of the history a decision that takes at most `delay` from its read is a probe. */
  ghost predicate MeetsProbe(c: Config, history: seq<Event>, delay: nat) {
    exists k: nat, read, now :: k <= |history| && now - read <= delay && HalfOpenAt(c, history[..k], read, now)
  }

  /** Event `k` opened the breaker, and the key outlives the cooldown as a decision of this delay sees it. */
  predicate OpensWide(c: Config, history: seq<Event>, k: nat, delay: nat) {
    Opens(c, history, k) && (!WholeSeconds(c) || delay > 0 || history[k].call.stamp < history[k].call.expire)
  }

  /** A worker that records failures only of allowed deliveries can meet a probe if and only if the breaker
      opened at some time and either the cooldown is no whole number of seconds, or that EXPIRE came later than
      the stamp, or decisions come later than their reads. */
  lemma ProbesIff(c: Config, history: seq<Event>, delay: nat)
    requires Ordered(history) && Obedient(c, history)
    ensures MeetsProbe(c, history, delay) <==> exists k: nat :: OpensWide(c, history, k, delay)
  {
    hide OpensWide, HalfOpenAt, Ordered, Obedient;
    if k: nat :| OpensWide(c, history, k, delay) {
      OpeningProbe(c, history, k, delay);
    }
    if MeetsProbe(c, history, delay) {
      var k: nat, read, now :| k <= |history| && now - read <= delay && HalfOpenAt(c, history[..k], read, now);
      ProbeIsOpened(c, history, k, read, now, delay);
    }
  }

  lemma ProbeIsOpened(c: Config, history: seq<Event>, n: nat, read: int, now: int, delay: nat)
    requires Ordered(history) && Obedient(c, history) && n <= |history|
    requires now - read <= delay && HalfOpenAt(c, history[..n], read, now)
    ensures exists k: nat :: OpensWide(c, history, k, delay)
  {
    var part := history[..n];
    Prefix(c, history, n);
    if delay == 0 && WholeSeconds(c) && PromptOpenings(c, part) {
      NeverHalfOpen(c, part, read);
    } else {
      HalfOpenIff(c, part, read, now);
      OpeningExists(c, part);
      var k: nat :| Opens(c, part, k) && (PromptOpenings(c, part) || part[k].call.stamp != part[k].call.expire);
      assert Opens(c, history, k) && part[k] == history[k] && InTime(history[k].call);
      hide Opens, HalfOpenAt;
      assert OpensWide(c, history, k, delay);
    }
  }

  lemma OpeningFacts(c: Config, history: seq<Event>, k: nat)
    requires Ordered(history) && Opens(c, history, k)
    ensures var part := history[..k + 1]; var outcomes := Outcomes(c, part);
            && Ordered(part) && Now(part) == history[k].call.expire && InTime(history[k].call)
            && Streak(c, outcomes) == Opening(c) && outcomes != [] && outcomes[|outcomes| - 1] == history[k].call
  {
    Prefix(c, history, k + 1);
    assert history[..k + 1][k] == history[k];
    hide Outcomes, Streak, Opening;
  }

  /** The cooldown ends before the last moment at which a decision of this delay has read the key. */
  lemma WindowIsOpen(c: Config, call: Call, delay: nat)
    requires InTime(call) && (!WholeSeconds(c) || delay > 0 || call.stamp < call.expire)
    ensures call.stamp + c.cooldownMs <= call.expire + TimeToLive(c) - if delay > 0 then 0 else 1
  {
  }

  lemma OpeningProbe(c: Config, history: seq<Event>, k: nat, delay: nat)
    requires Ordered(history) && OpensWide(c, history, k, delay)
    ensures MeetsProbe(c, history, delay)
  {
    var call := history[k].call;
    assert Opens(c, history, k) && k < |history|;
    assert !WholeSeconds(c) || delay > 0 || call.stamp < call.expire;
    var read := call.expire + TimeToLive(c) - 1;
    var now := if delay > 0 then read + 1 else read;
    hide *;
    OpeningFacts(c, history, k);
    WindowIsOpen(c, call, delay);
    ProbeWindow(c, history[..k + 1], read, now);
    ProbeIsMet(c, history, k + 1, read, now, delay);
  }

  lemma ProbeIsMet(c: Config, history: seq<Event>, n: nat, read: int, now: int, delay: nat)
    requires n <= |history| && now - read <= delay && HalfOpenAt(c, history[..n], read, now)
    ensures MeetsProbe(c, history, delay)
  {
    hide HalfOpenAt;
  }

  /** Failures that open the breaker, all in the first millisecond except that the last one is written
      `lag` later. */
  function Burst(n: nat, lag: nat): (calls: seq<Call>)
    ensures |calls| == n
  {
    seq(n, i => if i < n - 1 then Call(true, 1, 1, 1, 1) else Call(true, 1, 1, 1 + lag, 1 + lag))
  }

  lemma BurstFront(n: nat, lag: nat)
    requires n > 0
    ensures Burst(n, lag) == Burst(n - 1, 0) + [Call(true, 1, 1, 1 + lag, 1 + lag)]
    ensures Recordings(Burst(n, lag))[..n - 1] == Recordings(Burst(n - 1, 0))
  {
  }

  lemma BurstOrdered(n: nat, lag: nat)
    ensures Ordered(Recordings(Burst(n, lag)))
  {
  }

  lemma {:induction false} BurstOutcomes(c: Config, n: nat, lag: nat)
    ensures Outcomes(c, Recordings(Burst(n, lag))) == Burst(n, lag) && Streak(c, Burst(n, lag)) == n
  {
    if n > 0 {
      BurstOutcomes(c, n - 1, 0);
      BurstFront(n, lag);
      var before, call := Burst(n - 1, 0), Call(true, 1, 1, 1 + lag, 1 + lag);
      if n > 1 {
        StreakGoesOn(c, before, call);
      } else {
        StreakBegins(c, before, call);
      }
      hide Streak;
    }
  }

  lemma NothingObedient(c: Config)
    ensures Obedient(c, [])
  {
  }

  lemma {:induction false} BurstObeys(c: Config, n: nat, lag: nat)
    requires n <= Opening(c)
    ensures Obedient(c, Recordings(Burst(n, lag)))
  {
    hide *;
    if n == 0 {
      assert Recordings(Burst(n, lag)) == [];
      NothingObedient(c);
    } else {
      BurstObeys(c, n - 1, 0);
      BurstOutcomes(c, n - 1, 0);
      BurstFront(n, lag);
      BurstOrdered(n, lag);
      BurstObedient(c, Recordings(Burst(n, lag)));
    }
  }

  lemma BurstObedient(c: Config, history: seq<Event>)
    requires history != [] && Ordered(history) && Obedient(c, history[..|history| - 1])
    requires Streak(c, Outcomes(c, history[..|history| - 1])) < Opening(c)
    ensures Obedient(c, history)
  {
    var n := |history| - 1;
    OrderedFront(history);
    if history[n].Records? {
      RefusedWithinCooldown(c, history[..n], history[n].call.read, history[n].call.read);
    }
    hide Decide, Outcomes, Streak;
    assert forall i | 0 <= i < n :: history[..n][..i] == history[..i] && history[..n][i] == history[i];
  }

  /** Every record is complete at most `lag` after its stamp. */
  predicate Within(history: seq<Event>, lag: nat) {
    forall e | e in history && e.Records? :: e.call.expire - e.call.stamp <= lag
  }

  lemma BurstOpens(c: Config, lag: nat)
    ensures Opens(c, Recordings(Burst(Opening(c), lag)), Opening(c) - 1)
  {
    var n := Opening(c);
    BurstOutcomes(c, n, lag);
    BurstOutcomes(c, n - 1, 0);
    BurstFront(n, lag);
    var history := Recordings(Burst(n, lag));
    assert history[..n] == history;
    hide Outcomes, Streak;
  }

  /** With records complete within `lag` of their stamps and decisions within `delay` of their reads, there
      are runs with a probe if and only if the cooldown is no whole number of seconds or one of the two
      takes time. */
  lemma ProbesPossibleIff(c: Config, lag: nat, delay: nat)
    ensures (exists history :: Ordered(history) && Obedient(c, history) && Within(history, lag) &&
                               MeetsProbe(c, history, delay)) <==>
            !WholeSeconds(c) || lag > 0 || delay > 0
  {
    if !WholeSeconds(c) || lag > 0 || delay > 0 {
      var n := Opening(c);
      var history := Recordings(Burst(n, lag));
      BurstOrdered(n, lag);
      BurstObeys(c, n, lag);
      BurstOpens(c, lag);
      assert OpensWide(c, history, n - 1, delay);
      hide Opens, Ordered, Obedient;
      ProbesIff(c, history, delay);
    } else {
      forall history | Ordered(history) && Obedient(c, history) && Within(history, lag)
        ensures !MeetsProbe(c, history, delay)
      {
        ProbesIff(c, history, delay);
        forall k: nat ensures !OpensWide(c, history, k, delay) {
          if Opens(c, history, k) {
            assert history[k] in history;
          }
        }
      }
    }
  }

  /** A failure recorded inside the cooldown, of a delivery that began before it, keeps the record alive
      beyond the cooldown; so other workers can meet a probe with any configuration and without any delay. */
  lemma LateFailureMakesProbe(c: Config)
    ensures var late := Call(true, 2, 2, 2, 2); var now := 1 + Max(1, c.cooldownMs);
            HalfOpenAt(c, Recordings(Burst(Opening(c), 0) + [late]), now, now)
  {
    var late, before := Call(true, 2, 2, 2, 2), Burst(Opening(c), 0);
    var history, now := Recordings(before + [late]), 1 + Max(1, c.cooldownMs);
    LateOutcomes(c);
    LateOrdered(c);
    hide Outcomes, Streak, OpenedAt, Ordered, Burst;
    HalfOpenIff(c, history, now, now);
  }

  lemma LateOrdered(c: Config)
    ensures var history := Recordings(Burst(Opening(c), 0) + [Call(true, 2, 2, 2, 2)]);
            Ordered(history) && Now(history) == 2
  {
  }

  /** The last of the opening failures was recorded in the first millisecond, so the late one finds its record. */
  lemma LateIsKept(c: Config)
    ensures var late, before := Call(true, 2, 2, 2, 2), Burst(Opening(c), 0);
            && |before| == Opening(c) && before[|before| - 1] == Call(true, 1, 1, 1, 1)
            && !Lost(c, before, late) && !Expired(c, before, late.read)
            && Recordings(before + [late]) == Recordings(before) + [Records(late)]
  {
    hide StreakStart;
  }

  lemma OneMoreOutcome(c: Config, history: seq<Event>, call: Call)
    requires !Lost(c, Outcomes(c, history), call)
    ensures Outcomes(c, history + [Records(call)]) == Outcomes(c, history) + [call]
  {
    assert (history + [Records(call)])[..|history|] == history;
    hide Lost;
  }

  lemma BurstOpenedAt(c: Config)
    requires Streak(c, Burst(Opening(c), 0)) == Opening(c)
    ensures OpenedAt(c, Burst(Opening(c), 0)) == 1
  {
    LateIsKept(c);
    hide StreakStart, Burst;
  }

  lemma LateOutcomes(c: Config)
    ensures var late, before := Call(true, 2, 2, 2, 2), Burst(Opening(c), 0);
            && Outcomes(c, Recordings(before + [late])) == before + [late]
            && Streak(c, before + [late]) == Opening(c) + 1 && OpenedAt(c, before + [late]) == 1
  {
    hide *;
    var late, before := Call(true, 2, 2, 2, 2), Burst(Opening(c), 0);
    BurstOutcomes(c, Opening(c), 0);
    BurstOpenedAt(c);
    LateIsKept(c);
    OneMoreOutcome(c, Recordings(before), late);
    StreakGoesOn(c, before, late);
  }
}
