/** packages/shared/scripts/load-report.ts: the verdict on a load run. Times are milliseconds. */
module LoadReport {
  import opened Common
  import opened Store

  datatype Request = Request(tenant: string, scheduledAt: real, sentAt: Option<real>, status: Option<int>,
                             eventId: string, error: string, busyPending: int)
  datatype Receipt = Receipt(tenant: string, at: real)
  datatype Outcome = Outcome(eventId: string, tenant: string, status: string)
  datatype Preload = Preload(expected: int, published: int, visible: int, inFlight: int, delayed: int,
                             receiptsBeforeStart: int)
  datatype Fairness = Fairness(busyTenant: string, quietTenants: seq<string>, busyRequests: int, quietRequests: int,
                               busyP95: real, busyMax: real, minBusyPending: int, minOverlapping: int)
  datatype Limits = Limits(planned: int, p95: real, max: real, maxScheduleLag: real, requireAllAccepted: bool,
                           preload: Option<Preload>, fairness: Option<Fairness>)
  datatype Load = Load(requests: seq<Request>, receipts: map<string, Receipt>, outcomes: seq<Outcome>, limits: Limits)

  /** The sentences of the report, in the order of its checks. */
  datatype Finding = NotSubmitted | UnexpectedOutcome | VolumeNotAccepted | RepeatedId | MissingReceipt | MissingOutcome
                   | TooSlow | PreloadUnconfirmed | BusyVolume | QuietVolume | BehindSchedule

  // ---- lists ----

  function Filter<T>(q: seq<T>, p: T -> bool): seq<T> {
    if q == [] then [] else Filter(q[..|q| - 1], p) + (if p(q[|q| - 1]) then [q[|q| - 1]] else [])
  }

  /** The positions below `n` that Filter keeps. */
  function Kept<T>(q: seq<T>, p: T -> bool, n: nat): (k: seq<nat>)
    requires n <= |q|
    ensures forall i | 0 <= i < |k| :: k[i] < n && p(q[k[i]])
    ensures forall i, j | 0 <= i < j < |k| :: k[i] < k[j]
  {
    if n == 0 then [] else Kept(q, p, n - 1) + (if p(q[n - 1]) then [n - 1] else [])
  }

  lemma {:induction false} FilterIsKept<T>(q: seq<T>, p: T -> bool, n: nat)
    requires n <= |q|
    ensures |Filter(q[..n], p)| == |Kept(q, p, n)|
    ensures forall i | 0 <= i < |Kept(q, p, n)| :: Filter(q[..n], p)[i] == q[Kept(q, p, n)[i]]
  {
    if n > 0 {
      FilterIsKept(q, p, n - 1);
      FilterAppend(q[..n - 1], q[n - 1], p);
      assert q[..n] == q[..n - 1] + [q[n - 1]];
    }
  }

  function Positions<T>(q: seq<T>, p: T -> bool): (k: seq<nat>)
    ensures |k| == |Filter(q, p)|
    ensures forall i | 0 <= i < |k| :: k[i] < |q| && p(q[k[i]]) && Filter(q, p)[i] == q[k[i]]
    ensures forall i, j | 0 <= i < j < |k| :: k[i] < k[j]
  {
    FilterIsKept(q, p, |q|);
    assert q[..|q|] == q;
    Kept(q, p, |q|)
  }

  lemma {:induction false} EveryKept<T>(q: seq<T>, p: T -> bool, n: nat, at: nat)
    requires at < n <= |q| && p(q[at])
    ensures at in Kept(q, p, n)
  {
    if at < n - 1 {
      EveryKept(q, p, n - 1, at);
    }
  }

  lemma EveryPosition<T>(q: seq<T>, p: T -> bool, n: nat)
    requires n < |q| && p(q[n])
    ensures n in Positions(q, p)
  {
    EveryKept(q, p, |q|, n);
  }

  lemma FilterMembers<T(!new)>(q: seq<T>, p: T -> bool)
    ensures forall x :: x in Filter(q, p) <==> x in q && p(x)
  {
    var k := Positions(q, p);
    forall x | x in q && p(x) ensures x in Filter(q, p) {
      var n :| 0 <= n < |q| && q[n] == x;
      EveryPosition(q, p, n);
      var i :| 0 <= i < |k| && k[i] == n;
      assert Filter(q, p)[i] == x;
    }
  }

  lemma {:induction false} FilterSize<T(!new)>(q: seq<T>, p: T -> bool)
    ensures |Filter(q, p)| <= |q|
    ensures |Filter(q, p)| == |q| <==> forall x | x in q :: p(x)
  {
    if q != [] {
      FilterSize(q[..|q| - 1], p);
      assert q == q[..|q| - 1] + [q[|q| - 1]];
    }
  }

  lemma FilterAppend<T>(q: seq<T>, x: T, p: T -> bool)
    ensures Filter(q + [x], p) == Filter(q, p) + (if p(x) then [x] else [])
  {
    assert (q + [x])[..|q|] == q;
  }

  /** Filter keeps as many values as there are places that hold one of them. */
  lemma {:induction false} PlacesCount<T>(q: seq<T>, p: T -> bool, places: set<nat>)
    requires forall i: nat :: i in places <==> i < |q| && p(q[i])
    ensures |Filter(q, p)| == |places|
  {
    if q == [] {
      assert places == {};
    } else {
      var n := |q| - 1;
      PlacesCount(q[..n], p, places - {n});
      assert p(q[n]) <==> n in places;
    }
  }

  lemma {:induction false} FilterTwice<T>(q: seq<T>, p: T -> bool, r: T -> bool, both: T -> bool)
    requires forall x :: both(x) <==> p(x) && r(x)
    ensures Filter(Filter(q, p), r) == Filter(q, both)
  {
    if q != [] {
      var front, x := q[..|q| - 1], q[|q| - 1];
      FilterTwice(front, p, r, both);
      FilterAppend(Filter(front, p), x, r);
      assert p(x) ==> Filter(q, p) == Filter(front, p) + [x];
      assert !p(x) ==> Filter(q, p) == Filter(front, p) + [] == Filter(front, p);
    }
  }

  /** `new Set(values).size` against the number of values. */
  lemma {:induction false} SetSize<T>(q: seq<T>)
    ensures |set x | x in q| <= |q|
    ensures |set x | x in q| == |q| <==> Distinct(q)
  {
    if q == [] {
      assert (set x | x in q) == {};
    } else {
      var n := |q| - 1;
      SetSize(q[..n]);
      assert q == q[..n] + [q[n]];
      assert (set x | x in q) == (set x | x in q[..n]) + {q[n]};
    }
  }

  lemma {:induction false} SameSize<T>(a: set<T>, b: set<T>)
    requires a <= b && |a| == |b|
    ensures a == b
  {
    if a != {} {
      var x :| x in a;
      SameSize(a - {x}, b - {x});
    }
  }

  // ---- percentiles ----

  function Insert(x: real, q: seq<real>): seq<real> {
    if q == [] || x <= q[0] then [x] + q else [q[0]] + Insert(x, q[1..])
  }

  /** `[...values].sort((a, b) => a - b)` */
  function Sorted(values: seq<real>): seq<real> {
    if values == [] then [] else Insert(values[0], Sorted(values[1..]))
  }

  predicate Ascending(q: seq<real>) {
    forall i, j | 0 <= i < j < |q| :: q[i] <= q[j]
  }

  function Within(values: seq<real>, limit: real): nat {
    if values == [] then 0 else (if values[0] <= limit then 1 else 0) + Within(values[1..], limit)
  }

  lemma {:induction false} InsertOk(x: real, q: seq<real>, limit: real)
    requires Ascending(q)
    ensures |Insert(x, q)| == |q| + 1 && Ascending(Insert(x, q))
    ensures Within(Insert(x, q), limit) == Within([x], limit) + Within(q, limit)
    ensures forall y | y in Insert(x, q) :: y == x || y in q
  {
    if q == [] || x <= q[0] {
      assert ([x] + q)[1..] == q;
    } else {
      InsertOk(x, q[1..], limit);
      var r := Insert(x, q[1..]);
      assert Insert(x, q) == [q[0]] + r;
      assert ([q[0]] + r)[1..] == r;
      assert forall y | y in r :: q[0] <= y;
    }
  }

  lemma {:induction false} SortedOk(values: seq<real>, limit: real)
    ensures |Sorted(values)| == |values| && Ascending(Sorted(values))
    ensures Within(Sorted(values), limit) == Within(values, limit)
  {
    if values != [] {
      SortedOk(values[1..], limit);
      InsertOk(values[0], Sorted(values[1..]), limit);
    }
  }

  lemma {:induction false} RankWithin(q: seq<real>, k: nat, limit: real)
    requires Ascending(q) && k < |q|
    ensures q[k] <= limit <==> Within(q, limit) >= k + 1
  {
    if k > 0 {
      RankWithin(q[1..], k - 1, limit);
    } else {
      NoneWithin(q, limit);
    }
  }

  lemma {:induction false} NoneWithin(q: seq<real>, limit: real)
    requires Ascending(q)
    ensures q != [] && q[0] > limit ==> Within(q, limit) == 0
  {
    if q != [] {
      NoneWithin(q[1..], limit);
    }
  }

  lemma {:induction false} AllWithin(values: seq<real>, limit: real)
    ensures Within(values, limit) <= |values|
    ensures Within(values, limit) == |values| <==> forall v | v in values :: v <= limit
  {
    if values != [] {
      AllWithin(values[1..], limit);
      assert values == [values[0]] + values[1..];
      assert values[0] in values && forall v | v in values[1..] :: v in values;
    }
  }

  function CeilHundredths(n: nat, percent: nat): nat {
    (n * percent + 99) / 100
  }

  /** The rank is the least count that makes up the share. */
  lemma RankMeaning(n: nat, percent: nat, count: nat)
    requires percent <= 100
    ensures CeilHundredths(n, percent) <= n
    ensures n >= 1 && percent >= 1 ==> CeilHundredths(n, percent) >= 1
    ensures count >= CeilHundredths(n, percent) <==> 100 * count >= n * percent
  {
    MulAtMost(n, percent);
    var product := n * percent;
    hide CeilHundredths;
    assert CeilHundredths(n, percent) == (product + 99) / 100 by {
      CeilIs(n, percent);
    }
  }

  lemma CeilIs(n: nat, percent: nat)
    ensures CeilHundredths(n, percent) == (n * percent + 99) / 100
  {
  }

  lemma MulAtMost(n: nat, percent: nat)
    requires percent <= 100
    ensures n * percent <= n * 100
    ensures n >= 1 && percent >= 1 ==> n * percent >= 1
  {
  }

  /** `percentile(values, percent / 100)`. */
  function Percentile(values: seq<real>, percent: nat): Option<real>
    requires percent <= 100
  {
    if values == [] then None
    else
      SortedOk(values, 0.0);
      var rank := CeilHundredths(|values|, percent);
      RankMeaning(|values|, percent, 0);
      Some(Sorted(values)[if rank == 0 then 0 else rank - 1])
  }

  predicate AtMost(p: Option<real>, limit: real) {
    p.Some? && p.value <= limit
  }

  /** A percentile is within a limit exactly when that share of the values is. */
  lemma PercentileMeaning(values: seq<real>, percent: nat, limit: real)
    requires 1 <= percent <= 100 && values != []
    ensures AtMost(Percentile(values, percent), limit) <==> 100 * Within(values, limit) >= |values| * percent
  {
    SortedOk(values, limit);
    RankMeaning(|values|, percent, Within(values, limit));
    RankWithin(Sorted(values), CeilHundredths(|values|, percent) - 1, limit);
    hide CeilHundredths, Sorted, Within, Ascending;
  }

  /** The largest value is within a limit exactly when all are. */
  lemma MaximumMeaning(values: seq<real>, limit: real)
    requires values != []
    ensures AtMost(Percentile(values, 100), limit) <==> forall v | v in values :: v <= limit
  {
    PercentileMeaning(values, 100, limit);
    AllWithin(values, limit);
  }

  // ---- what the report looks at ----

  predicate IsAccepted(r: Request) {
    r.status == Some(201) && r.eventId != ""
  }

  predicate IsError(r: Request) {
    r.error != "" || (r.status != Some(201) && r.status != Some(429)) || (r.status == Some(201) && r.eventId == "")
  }

  /** A request without an error is accepted or throttled; every other one counts as an error. */
  lemma RequestClasses(r: Request)
    ensures IsAccepted(r) && !IsError(r) <==> r.error == "" && r.status == Some(201) && r.eventId != ""
    ensures !IsAccepted(r) && !IsError(r) <==> r.error == "" && r.status == Some(429)
    ensures IsAccepted(r) && IsError(r) <==> r.error != "" && r.status == Some(201) && r.eventId != ""
  {
  }

  function Accepted(load: Load): seq<Request> {
    Filter(load.requests, IsAccepted)
  }

  function Admitted(load: Load, tenant: string): seq<Request> {
    Filter(Accepted(load), (r: Request) => r.tenant == tenant)
  }

  predicate Received(r: Request, receipts: map<string, Receipt>) {
    r.eventId in receipts && receipts[r.eventId].tenant == r.tenant && r.sentAt.Some?
  }

  function Latencies(requests: seq<Request>, receipts: map<string, Receipt>): seq<real> {
    if requests == [] then []
    else (if Received(requests[0], receipts) then [receipts[requests[0].eventId].at - requests[0].sentAt.value] else [])
         + Latencies(requests[1..], receipts)
  }

  lemma {:induction false} LatenciesSize(requests: seq<Request>, receipts: map<string, Receipt>)
    ensures |Latencies(requests, receipts)| <= |requests|
    ensures |Latencies(requests, receipts)| == |requests| <==> forall r | r in requests :: Received(r, receipts)
  {
    if requests != [] {
      LatenciesSize(requests[1..], receipts);
      assert requests == [requests[0]] + requests[1..];
    }
  }

  function Lags(requests: seq<Request>): seq<real> {
    if requests == [] then []
    else (if requests[0].sentAt.Some? then [Lag(requests[0])] else []) + Lags(requests[1..])
  }

  function Lag(r: Request): real
    requires r.sentAt.Some?
  {
    if r.sentAt.value - r.scheduledAt > 0.0 then r.sentAt.value - r.scheduledAt else 0.0
  }

  lemma {:induction false} LagsMembers(requests: seq<Request>)
    ensures forall v :: v in Lags(requests) <==> exists r :: r in requests && r.sentAt.Some? && v == Lag(r)
  {
    if requests != [] {
      LagsMembers(requests[1..]);
      assert requests == [requests[0]] + requests[1..];
      if requests[0].sentAt.Some? {
        assert requests[0] in requests;
      }
    }
  }

  function EventIds(requests: seq<Request>): (ids: seq<string>)
    ensures |ids| == |requests|
  {
    seq(|requests|, i requires 0 <= i < |requests| => requests[i].eventId)
  }

  function OutcomeEvents(outcomes: seq<Outcome>): (ids: seq<string>)
    ensures |ids| == |outcomes|
  {
    seq(|outcomes|, i requires 0 <= i < |outcomes| => outcomes[i].eventId)
  }

  function Ids(requests: seq<Request>): set<string> {
    set id | id in EventIds(requests)
  }

  function OutcomeIds(outcomes: seq<Outcome>): set<string> {
    set id | id in OutcomeEvents(outcomes)
  }

  /** `new Map(accepted.map(request => [request.eventId, request]))`: the last request of an ID stays. */
  function ById(requests: seq<Request>): map<string, Request> {
    if requests == [] then map[]
    else ById(requests[..|requests| - 1])[requests[|requests| - 1].eventId := requests[|requests| - 1]]
  }

  function Owned(load: Load): seq<Outcome> {
    var ids := Ids(Accepted(load));
    Filter(load.outcomes, (o: Outcome) => o.eventId in ids)
  }

  predicate IsBusy(load: Load, tenant: string) {
    load.limits.fairness.Some? && load.limits.fairness.value.busyTenant == tenant
  }

  function P95Limit(load: Load, tenant: string): real {
    if IsBusy(load, tenant) then load.limits.fairness.value.busyP95 else load.limits.p95
  }

  function MaxLimit(load: Load, tenant: string): real {
    if IsBusy(load, tenant) then load.limits.fairness.value.busyMax else load.limits.max
  }

  function Overlapped(load: Load, tenant: string, pending: int): nat {
    |Filter(Admitted(load, tenant), (r: Request) => r.busyPending >= pending)|
  }

  predicate HasTenant(load: Load, tenant: string) {
    exists r :: r in load.requests && r.tenant == tenant
  }

  // ---- the checks ----

  predicate BadOutcome(load: Load, o: Outcome) {
    o.status != "SUCCEEDED" || o.eventId !in ById(Accepted(load)) || ById(Accepted(load))[o.eventId].tenant != o.tenant
  }

  predicate Slow(load: Load, tenant: string) {
    var times := Latencies(Admitted(load, tenant), load.receipts);
    Admitted(load, tenant) != [] &&
    (!AtMost(Percentile(times, 95), P95Limit(load, tenant)) || !AtMost(Percentile(times, 100), MaxLimit(load, tenant)))
  }

  predicate QuietMissing(load: Load, fairness: Fairness, tenant: string) {
    || !HasTenant(load, tenant)
    || |Admitted(load, tenant)| != fairness.quietRequests
    || Overlapped(load, tenant, fairness.minBusyPending) < fairness.minOverlapping
  }

  predicate Wrong(load: Load, finding: Finding) {
    var accepted, owned, limits := Accepted(load), Owned(load), load.limits;
    match finding
    case NotSubmitted => |load.requests| != limits.planned || exists r :: r in load.requests && r.sentAt.None?
    case UnexpectedOutcome => |Filter(load.requests, IsError)| != 0
    case VolumeNotAccepted => accepted == [] || (limits.requireAllAccepted && |accepted| != limits.planned)
    case RepeatedId => |Ids(accepted)| != |accepted|
    case MissingReceipt => |Latencies(accepted, load.receipts)| != |accepted|
    case MissingOutcome =>
      || |owned| != |accepted| || |OutcomeIds(owned)| != |accepted|
      || exists o :: o in owned && BadOutcome(load, o)
    case TooSlow => exists r :: r in load.requests && Slow(load, r.tenant)
    case PreloadUnconfirmed =>
      limits.preload.Some? &&
      var p := limits.preload.value;
      p.expected < 1001 || p.published != p.expected || p.visible < p.expected || p.inFlight != 0 || p.delayed != 0 ||
      p.receiptsBeforeStart != 0
    case BusyVolume =>
      limits.fairness.Some? &&
      (!HasTenant(load, limits.fairness.value.busyTenant) ||
       |Admitted(load, limits.fairness.value.busyTenant)| != limits.fairness.value.busyRequests)
    case QuietVolume =>
      limits.fairness.Some? &&
      exists t :: t in limits.fairness.value.quietTenants && QuietMissing(load, limits.fairness.value, t)
    case BehindSchedule => !AtMost(Percentile(Lags(load.requests), 100), limits.maxScheduleLag)
  }

  // ---- the report ----

  datatype Report = Report(passed: bool, failures: seq<Finding>, accepted: nat, rejected: nat, errors: nat,
                           delivered: nat, statuses: map<string, nat>)

  /** `for (const outcome of owned) statuses[outcome.status] = (statuses[outcome.status] ?? 0) + 1` */
  method CountStatuses(owned: seq<Outcome>) returns (statuses: map<string, nat>)
    ensures forall s :: s in statuses <==> exists o :: o in owned && o.status == s
    ensures forall s | s in statuses :: statuses[s] == |Filter(owned, (o: Outcome) => o.status == s)|
  {
    hide Filter;
    statuses := NoStatuses();
    for i := 0 to |owned|
      invariant forall s :: s in statuses <==> exists o :: o in owned[..i] && o.status == s
      invariant forall s | s in statuses :: statuses[s] == StatusCount(owned[..i], s)
      invariant forall s | s !in statuses :: StatusCount(owned[..i], s) == 0
    {
      var status := owned[i].status;
      ghost var before := statuses;
      statuses := statuses[status := (if status in statuses then statuses[status] else 0) + 1];
      assert owned[..i + 1] == owned[..i] + [owned[i]];
      forall s ensures StatusCount(owned[..i + 1], s) == StatusCount(owned[..i], s) + if s == status then 1 else 0 {
        CountNext(owned[..i], owned[i], s);
      }
      hide StatusCount;
    }
    assert owned[..|owned|] == owned;
    assert forall s :: StatusCount(owned, s) == |Filter(owned, (o: Outcome) => o.status == s)|;
  }

  method NoStatuses() returns (statuses: map<string, nat>)
    ensures statuses == map[] && forall s :: StatusCount([], s) == 0
  {
    statuses := map[];
  }

  lemma CountNext(owned: seq<Outcome>, next: Outcome, status: string)
    ensures StatusCount(owned + [next], status) == StatusCount(owned, status) + if next.status == status then 1 else 0
  {
    FilterAppend(owned, next, (o: Outcome) => o.status == status);
  }

  function StatusCount(owned: seq<Outcome>, status: string): nat {
    |Filter(owned, (o: Outcome) => o.status == status)|
  }

  method MakeReport(load: Load) returns (report: Report)
    ensures report.passed <==> Healthy(load)
    ensures report.passed <==> forall f :: !Wrong(load, f)
    ensures forall f :: f in report.failures <==> Wrong(load, f)
    ensures forall i, j | 0 <= i < j < |report.failures| :: Rank(report.failures[i]) < Rank(report.failures[j])
    ensures report.accepted == |Accepted(load)|
            && report.rejected == |Filter(load.requests, (r: Request) => r.status == Some(429))|
    ensures report.errors == |Filter(load.requests, IsError)|
    ensures report.delivered == |Latencies(Accepted(load), load.receipts)| <= report.accepted
    ensures forall s :: s in report.statuses <==> exists o :: o in Owned(load) && o.status == s
    ensures forall s | s in report.statuses ::
            report.statuses[s] == |Filter(Owned(load), (o: Outcome) => o.status == s)|
  {
    hide Filter, Latencies, Accepted, Owned, IsError, Wrong, Covers, Healthy;
    var accepted := Accepted(load);
    var latencies := Latencies(accepted, load.receipts);
    LatenciesSize(accepted, load.receipts);
    var statuses := CountStatuses(Owned(load));
    var failures := NoFindings(load);
    failures := TrafficFindings(load, failures);
    failures := DeliveryFindings(load, failures);
    failures := SetupFindings(load, failures);
    AllCovered(load, failures);
    PassedIffHealthy(load);
    report := Report(failures == [], failures, |accepted|,
                     |Filter(load.requests, (r: Request) => r.status == Some(429))|,
                     |Filter(load.requests, IsError)|, |latencies|, statuses);
  }

  method TrafficFindings(load: Load, failures: seq<Finding>) returns (more: seq<Finding>)
    requires Covers(load, failures, 0)
    ensures Covers(load, more, 4)
  {
    hide Filter, Latencies, Accepted, Owned, Covers, Ids;
    var requests, limits := load.requests, load.limits;
    var accepted := Accepted(load);
    more := Push(load, failures, NotSubmitted,
                 |requests| != limits.planned || exists r :: r in requests && r.sentAt.None?);
    more := Push(load, more, UnexpectedOutcome, |Filter(requests, IsError)| != 0);
    more := Push(load, more, VolumeNotAccepted,
                 accepted == [] || (limits.requireAllAccepted && |accepted| != limits.planned));
    more := Push(load, more, RepeatedId, |Ids(accepted)| != |accepted|);
  }

  method DeliveryFindings(load: Load, failures: seq<Finding>) returns (more: seq<Finding>)
    requires Covers(load, failures, 4)
    ensures Covers(load, more, 7)
  {
    hide Filter, Latencies, Accepted, Owned, Covers, OutcomeIds, BadOutcome, Slow;
    var accepted, owned := Accepted(load), Owned(load);
    more := Push(load, failures, MissingReceipt, |Latencies(accepted, load.receipts)| != |accepted|);
    more := Push(load, more, MissingOutcome,
                 |owned| != |accepted| || |OutcomeIds(owned)| != |accepted| ||
                 exists o :: o in owned && BadOutcome(load, o));
    more := Push(load, more, TooSlow, exists r :: r in load.requests && Slow(load, r.tenant));
  }

  method SetupFindings(load: Load, failures: seq<Finding>) returns (more: seq<Finding>)
    requires Covers(load, failures, 7)
    ensures Covers(load, more, 11)
  {
    hide Filter, Latencies, Accepted, Owned, Covers, Admitted, HasTenant, QuietMissing, Percentile, Lags, AtMost;
    var limits := load.limits;
    var fail := false;
    if limits.preload.Some? {
      var p := limits.preload.value;
      fail := p.expected < 1001 || p.published != p.expected || p.visible < p.expected ||
              p.inFlight != 0 || p.delayed != 0 || p.receiptsBeforeStart != 0;
    }
    more := Push(load, failures, PreloadUnconfirmed, fail);
    var busyFails, quietFails := false, false;
    if limits.fairness.Some? {
      var fairness := limits.fairness.value;
      busyFails := !HasTenant(load, fairness.busyTenant)
          || |Admitted(load, fairness.busyTenant)| != fairness.busyRequests;
      quietFails := exists t :: t in fairness.quietTenants && QuietMissing(load, fairness, t);
    }
    more := Push(load, more, BusyVolume, busyFails);
    more := Push(load, more, QuietVolume, quietFails);
    more := Push(load, more, BehindSchedule, !AtMost(Percentile(Lags(load.requests), 100), limits.maxScheduleLag));
  }

  function Rank(finding: Finding): nat {
    match finding
    case NotSubmitted => 0
    case UnexpectedOutcome => 1
    case VolumeNotAccepted => 2
    case RepeatedId => 3
    case MissingReceipt => 4
    case MissingOutcome => 5
    case TooSlow => 6
    case PreloadUnconfirmed => 7
    case BusyVolume => 8
    case QuietVolume => 9
    case BehindSchedule => 10
  }

  /** The list holds what is wrong by the first `n` checks, each finding once and in order. */
  ghost predicate Covers(load: Load, failures: seq<Finding>, n: nat) {
    && (forall f :: f in failures <==> Wrong(load, f) && Rank(f) < n)
    && (forall i, j | 0 <= i < j < |failures| :: Rank(failures[i]) < Rank(failures[j]))
  }

  method NoFindings(ghost load: Load) returns (failures: seq<Finding>)
    ensures failures == [] && Covers(load, failures, 0)
  {
    failures := [];
  }

  method Push(ghost load: Load, failures: seq<Finding>, finding: Finding, fail: bool) returns (more: seq<Finding>)
    requires fail == Wrong(load, finding) && Covers(load, failures, Rank(finding))
    ensures more == if fail then failures + [finding] else failures
    ensures Covers(load, more, Rank(finding) + 1)
  {
    hide Wrong;
    more := if fail then failures + [finding] else failures;
    assert forall i | 0 <= i < |failures| :: failures[i] in failures;
  }

  lemma AllCovered(load: Load, failures: seq<Finding>)
    requires Covers(load, failures, 11)
    ensures forall f :: f in failures <==> Wrong(load, f)
    ensures failures == [] <==> forall f :: !Wrong(load, f)
    ensures forall i, j | 0 <= i < j < |failures| :: Rank(failures[i]) < Rank(failures[j])
  {
    hide Wrong;
    assert failures != [] ==> failures[0] in failures;
  }

  // ---- what "passed" means ----

  predicate AllSent(load: Load) {
    |load.requests| == load.limits.planned && forall r | r in load.requests :: r.sentAt.Some?
  }

  predicate VolumeAccepted(load: Load) {
    && (exists r :: r in load.requests && IsAccepted(r))
    && (load.limits.requireAllAccepted ==> |Accepted(load)| == load.limits.planned)
  }

  predicate DeliveredToTenant(load: Load) {
    forall r | r in load.requests && IsAccepted(r) :: Received(r, load.receipts)
  }

  /** The only outcome of the request's event is at `j`, and it is a success of the request's tenant. */
  predicate OnlyOutcome(load: Load, r: Request, j: nat) {
    && j < |load.outcomes|
    && load.outcomes[j] == Outcome(r.eventId, r.tenant, "SUCCEEDED")
    && forall k | 0 <= k < |load.outcomes| && load.outcomes[k].eventId == r.eventId :: k == j
  }

  /** Accepted requests and their outcomes correspond one to one. */
  predicate OutcomesMatch(load: Load) {
    forall r | r in load.requests && IsAccepted(r) :: exists j: nat :: j < |load.outcomes| && OnlyOutcome(load, r, j)
  }

  predicate OnTime(load: Load, tenant: string) {
    var times := Latencies(Admitted(load, tenant), load.receipts);
    && 100 * Within(times, P95Limit(load, tenant)) >= |times| * 95
    && forall v | v in times :: v <= MaxLimit(load, tenant)
  }

  predicate PreloadConfirmed(load: Load) {
    load.limits.preload.Some? ==>
      var p := load.limits.preload.value;
      && p.expected >= 1001 && p.published == p.expected <= p.visible
      && p.inFlight == 0 && p.delayed == 0 && p.receiptsBeforeStart == 0
  }

  predicate FairlyLoaded(load: Load) {
    load.limits.fairness.Some? ==>
      var f := load.limits.fairness.value;
      && HasTenant(load, f.busyTenant) && |Admitted(load, f.busyTenant)| == f.busyRequests
      && forall t | t in f.quietTenants ::
           && HasTenant(load, t) && |Admitted(load, t)| == f.quietRequests
           && Overlapped(load, t, f.minBusyPending) >= f.minOverlapping
  }

  predicate OnSchedule(load: Load) {
    (forall r | r in load.requests && r.sentAt.Some? :: Lag(r) <= load.limits.maxScheduleLag)
  }

  ghost predicate PartsHealthy(load: Load) {
    && AllSent(load)
    && (forall r | r in load.requests :: !IsError(r))
    && VolumeAccepted(load)
    && Distinct(EventIds(Accepted(load)))
    && DeliveredToTenant(load)
    && OutcomesMatch(load)
    && (forall t :: OnTime(load, t))
    && PreloadConfirmed(load) && FairlyLoaded(load) && OnSchedule(load)
  }

  lemma {:induction false} ByIdOf(requests: seq<Request>, id: string)
    ensures id in ById(requests) <==> id in EventIds(requests)
    ensures id in ById(requests) ==> ById(requests)[id] in requests && ById(requests)[id].eventId == id
  {
    if requests != [] {
      var n := |requests| - 1;
      ByIdOf(requests[..n], id);
      assert EventIds(requests) == EventIds(requests[..n]) + [requests[n].eventId];
    }
  }

  lemma SameRequest(requests: seq<Request>, a: Request, b: Request)
    requires Distinct(EventIds(requests)) && a in requests && b in requests && a.eventId == b.eventId
    ensures a == b
  {
    var i :| 0 <= i < |requests| && requests[i] == a;
    var j :| 0 <= j < |requests| && requests[j] == b;
    assert EventIds(requests)[i] == EventIds(requests)[j];
  }

  predicate OwnedBy(load: Load, o: Outcome) {
    o.eventId in Ids(Accepted(load))
  }

  lemma OwnedIs(load: Load)
    ensures Owned(load) == Filter(load.outcomes, (o: Outcome) => OwnedBy(load, o))
  {
    var ids := Ids(Accepted(load));
    FilterSame(load.outcomes, (o: Outcome) => o.eventId in ids, (o: Outcome) => OwnedBy(load, o));
  }

  lemma {:induction false} FilterSame<T(!new)>(q: seq<T>, p: T -> bool, r: T -> bool)
    requires forall x :: p(x) == r(x)
    ensures Filter(q, p) == Filter(q, r)
  {
    if q != [] {
      FilterSame(q[..|q| - 1], p, r);
    }
  }

  lemma IdOwner(requests: seq<Request>, id: string) returns (r: Request)
    requires id in Ids(requests)
    ensures r in requests && r.eventId == id
  {
    var i :| 0 <= i < |requests| && EventIds(requests)[i] == id;
    r := requests[i];
  }

  lemma OwnerHasId(requests: seq<Request>, r: Request)
    requires r in requests
    ensures r.eventId in Ids(requests)
  {
    var i :| 0 <= i < |requests| && requests[i] == r;
    assert EventIds(requests)[i] == r.eventId;
  }

  /** The outcome at `j` is owned, and it is where Filter put it. */
  lemma OwnedAt(load: Load, j: nat) returns (i: nat)
    requires j < |load.outcomes| && OwnedBy(load, load.outcomes[j])
    ensures i < |Owned(load)| && OwnedPositions(load)[i] == j
  {
    EveryPosition(load.outcomes, (o: Outcome) => OwnedBy(load, o), j);
    OwnedIs(load);
    assert OwnedPositions(load) == Positions(load.outcomes, (o: Outcome) => OwnedBy(load, o));
    i :| 0 <= i < |OwnedPositions(load)| && OwnedPositions(load)[i] == j;
  }

  function OwnedPositions(load: Load): (k: seq<nat>)
    ensures |k| == |Owned(load)|
    ensures forall i | 0 <= i < |k| ::
              k[i] < |load.outcomes| && OwnedBy(load, load.outcomes[k[i]]) && Owned(load)[i] == load.outcomes[k[i]]
    ensures forall i, j | 0 <= i < j < |k| :: k[i] < k[j]
  {
    OwnedIs(load);
    Positions(load.outcomes, (o: Outcome) => OwnedBy(load, o))
  }

  lemma OwnedIdsAreAccepted(load: Load)
    requires Distinct(EventIds(Accepted(load))) && !Wrong(load, MissingOutcome)
    ensures OutcomeIds(Owned(load)) == Ids(Accepted(load)) && Distinct(OutcomeEvents(Owned(load)))
  {
    hide Filter, BadOutcome, Distinct;
    var accepted, owned, k := Accepted(load), Owned(load), OwnedPositions(load);
    SetSize(OutcomeEvents(owned));
    SetSize(EventIds(accepted));
    assert OutcomeIds(owned) <= Ids(accepted);
    SameSize(OutcomeIds(owned), Ids(accepted));
  }

  lemma OnlyOwned(load: Load, i: nat, m: nat)
    requires i < |Owned(load)| && Distinct(OutcomeEvents(Owned(load))) && OwnedBy(load, Owned(load)[i])
    requires m < |load.outcomes| && load.outcomes[m].eventId == Owned(load)[i].eventId
    ensures m == OwnedPositions(load)[i]
  {
    hide Filter, Accepted, Owned, OwnedPositions;
    var n := OwnedAt(load, m);
    assert OutcomeEvents(Owned(load))[n] == OutcomeEvents(Owned(load))[i];
  }

  lemma OwnedIsSuccess(load: Load, o: Outcome, r: Request)
    requires Distinct(EventIds(Accepted(load))) && !BadOutcome(load, o)
    requires r in Accepted(load) && o.eventId == r.eventId
    ensures o == Outcome(r.eventId, r.tenant, "SUCCEEDED")
  {
    ByIdOf(Accepted(load), r.eventId);
    SameRequest(Accepted(load), ById(Accepted(load))[r.eventId], r);
  }

  lemma OutcomeOf(load: Load, r: Request) returns (j: nat)
    requires Distinct(EventIds(Accepted(load))) && !Wrong(load, MissingOutcome) && r in Accepted(load)
    ensures j < |load.outcomes| && OnlyOutcome(load, r, j)
  {
    hide Filter, Accepted, Owned, Distinct, BadOutcome, OwnedPositions;
    OwnedIdsAreAccepted(load);
    var owned := Owned(load);
    OwnerHasId(Accepted(load), r);
    var i :| 0 <= i < |owned| && OutcomeEvents(owned)[i] == r.eventId;
    j := OwnedPositions(load)[i];
    assert owned[i] in owned && !BadOutcome(load, owned[i]);
    hide Wrong;
    OwnedIsSuccess(load, owned[i], r);
    forall m | 0 <= m < |load.outcomes| && load.outcomes[m].eventId == r.eventId ensures m == j {
      OnlyOwned(load, i, m);
    }
  }

  lemma MatchedOwner(load: Load, o: Outcome) returns (r: Request, j: nat)
    requires OutcomesMatch(load) && OwnedBy(load, o)
    ensures r in Accepted(load) && r.eventId == o.eventId && j < |load.outcomes| && OnlyOutcome(load, r, j)
  {
    r := IdOwner(Accepted(load), o.eventId);
    FilterMembers(load.requests, IsAccepted);
    j :| j < |load.outcomes| && OnlyOutcome(load, r, j);
  }

  lemma MatchedIds(load: Load)
    requires OutcomesMatch(load)
    ensures OutcomeIds(Owned(load)) == Ids(Accepted(load)) && Distinct(OutcomeEvents(Owned(load)))
  {
    var owned, k := Owned(load), OwnedPositions(load);
    forall a, b | 0 <= a < b < |owned| ensures OutcomeEvents(owned)[a] != OutcomeEvents(owned)[b] {
      var r, j := MatchedOwner(load, owned[a]);
      assert k[a] == j;
    }
    forall id | id in Ids(Accepted(load)) ensures id in OutcomeIds(owned) {
      var r, j := MatchedOwner(load, Outcome(id, "", ""));
      OwnerHasId(Accepted(load), r);
      var i := OwnedAt(load, j);
      assert OutcomeEvents(owned)[i] == id;
    }
    forall id | id in OutcomeIds(owned) ensures id in Ids(Accepted(load)) {
      var i :| 0 <= i < |owned| && OutcomeEvents(owned)[i] == id;
      assert OwnedBy(load, load.outcomes[k[i]]);
    }
  }

  lemma MatchedOutcomes(load: Load)
    requires Distinct(EventIds(Accepted(load))) && OutcomesMatch(load)
    ensures !Wrong(load, MissingOutcome)
  {
    var accepted, owned, k := Accepted(load), Owned(load), OwnedPositions(load);
    MatchedIds(load);
    SetSize(OutcomeEvents(owned));
    SetSize(EventIds(accepted));
    forall o | o in owned ensures !BadOutcome(load, o) {
      var i :| 0 <= i < |owned| && owned[i] == o;
      var r, j := MatchedOwner(load, o);
      assert k[i] == j;
      ByIdOf(accepted, o.eventId);
      OwnerHasId(accepted, r);
      SameRequest(accepted, ById(accepted)[o.eventId], r);
    }
  }

  lemma OutcomesMatchIff(load: Load)
    requires Distinct(EventIds(Accepted(load)))
    ensures !Wrong(load, MissingOutcome) <==> OutcomesMatch(load)
  {
    hide Wrong, OnlyOutcome;
    if OutcomesMatch(load) {
      MatchedOutcomes(load);
    } else if !Wrong(load, MissingOutcome) {
      FilterMembers(load.requests, IsAccepted);
      forall r | r in load.requests && IsAccepted(r)
        ensures exists j: nat :: j < |load.outcomes| && OnlyOutcome(load, r, j)
      {
        var j := OutcomeOf(load, r);
      }
      assert false;
    }
  }

  lemma DeliveredIff(load: Load)
    ensures !Wrong(load, MissingReceipt) <==> DeliveredToTenant(load)
  {
    LatenciesSize(Accepted(load), load.receipts);
    FilterMembers(load.requests, IsAccepted);
  }

  lemma ExpectedIff(load: Load)
    ensures !Wrong(load, UnexpectedOutcome) <==> forall r | r in load.requests :: !IsError(r)
  {
    FilterMembers(load.requests, IsError);
    var wrong := Filter(load.requests, IsError);
    assert wrong != [] ==> wrong[0] in wrong;
  }

  lemma VolumeIff(load: Load)
    ensures !Wrong(load, VolumeNotAccepted) <==> VolumeAccepted(load)
  {
    FilterMembers(load.requests, IsAccepted);
    assert Accepted(load) != [] ==> Accepted(load)[0] in Accepted(load);
  }

  lemma DistinctIff(load: Load)
    ensures !Wrong(load, RepeatedId) <==> Distinct(EventIds(Accepted(load)))
  {
    SetSize(EventIds(Accepted(load)));
  }

  lemma NotSlowIff(load: Load, tenant: string)
    requires DeliveredToTenant(load)
    ensures !Slow(load, tenant) <==> OnTime(load, tenant)
  {
    var admitted := Admitted(load, tenant);
    var times := Latencies(admitted, load.receipts);
    FilterMembers(load.requests, IsAccepted);
    FilterMembers(Accepted(load), (r: Request) => r.tenant == tenant);
    LatenciesSize(admitted, load.receipts);
    if admitted != [] {
      PercentileMeaning(times, 95, P95Limit(load, tenant));
      MaximumMeaning(times, MaxLimit(load, tenant));
    }
  }

  lemma OnTimeIff(load: Load)
    requires DeliveredToTenant(load)
    ensures !Wrong(load, TooSlow) <==> forall t :: OnTime(load, t)
  {
    hide Slow, OnTime, DeliveredToTenant;
    forall t ensures !Slow(load, t) <==> OnTime(load, t) {
      NotSlowIff(load, t);
    }
    forall t | Slow(load, t) ensures exists r :: r in load.requests && r.tenant == t {
      SlowTenantAsked(load, t);
    }
  }

  lemma SlowTenantAsked(load: Load, tenant: string)
    requires Slow(load, tenant)
    ensures exists r :: r in load.requests && r.tenant == tenant
  {
    var r := Admitted(load, tenant)[0];
    FilterMembers(load.requests, IsAccepted);
    FilterMembers(Accepted(load), (r: Request) => r.tenant == tenant);
    assert r in Admitted(load, tenant);
  }

  lemma SetupIff(load: Load)
    ensures !Wrong(load, NotSubmitted) <==> AllSent(load)
    ensures !Wrong(load, PreloadUnconfirmed) <==> PreloadConfirmed(load)
    ensures !Wrong(load, BusyVolume) && !Wrong(load, QuietVolume) <==> FairlyLoaded(load)
  {
    hide Filter, Latencies, Accepted, Owned, Admitted, Overlapped, HasTenant;
  }

  lemma OnScheduleIff(load: Load)
    requires exists r :: r in load.requests && r.sentAt.Some?
    ensures !Wrong(load, BehindSchedule) <==> OnSchedule(load)
  {
    LagsMembers(load.requests);
    var lags := Lags(load.requests);
    var r :| r in load.requests && r.sentAt.Some?;
    assert Lag(r) in lags;
    assert (forall v | v in lags :: v <= load.limits.maxScheduleLag) <==> OnSchedule(load) by {
      assert forall x | x in load.requests && x.sentAt.Some? :: Lag(x) in lags;
    }
    MaximumMeaning(Lags(load.requests), load.limits.maxScheduleLag);
  }

  lemma PassedIffParts(load: Load)
    ensures (forall f :: !Wrong(load, f)) <==> PartsHealthy(load)
  {
    hide Wrong, Distinct, DeliveredToTenant, OutcomesMatch, OnTime, PreloadConfirmed, FairlyLoaded, OnSchedule,
         Accepted;
    ExpectedIff(load);
    VolumeIff(load);
    DistinctIff(load);
    DeliveredIff(load);
    SetupIff(load);
    if Distinct(EventIds(Accepted(load))) {
      OutcomesMatchIff(load);
    }
    if DeliveredToTenant(load) {
      OnTimeIff(load);
    }
    if VolumeAccepted(load) && AllSent(load) {
      OnScheduleIff(load);
    }
    hide AllSent, VolumeAccepted;
    if PartsHealthy(load) {
      forall f ensures !Wrong(load, f) {
        match f {
          case NotSubmitted =>
          case UnexpectedOutcome =>
          case VolumeNotAccepted =>
          case RepeatedId =>
          case MissingReceipt =>
          case MissingOutcome =>
          case TooSlow =>
          case PreloadUnconfirmed =>
          case BusyVolume =>
          case QuietVolume =>
          case BehindSchedule =>
        }
      }
    }
  }

  // ---- the healthy run, by the requests, the receipts and the outcomes ----

  /** The places of the tenant's accepted requests. */
  function AcceptedOf(load: Load, tenant: string): set<nat> {
    set i: nat | i < |load.requests| && load.requests[i].status == Some(201) && load.requests[i].tenant == tenant
  }

  /** Those that their tenant received within `limit` of their submission. */
  function InTime(load: Load, tenant: string, limit: real): set<nat> {
    set i: nat | i < |load.requests| && load.requests[i].status == Some(201) && load.requests[i].tenant == tenant &&
                 load.requests[i].sentAt.Some? && load.requests[i].eventId in load.receipts &&
                 load.receipts[load.requests[i].eventId].at - load.requests[i].sentAt.value <= limit
  }

  /** Those that were submitted while at least `pending` busy events were outstanding. */
  function Beside(load: Load, tenant: string, pending: int): set<nat> {
    set i: nat | i < |load.requests| && load.requests[i].status == Some(201) && load.requests[i].tenant == tenant &&
                 load.requests[i].busyPending >= pending
  }

  predicate Asked(load: Load, tenant: string) {
    exists i :: 0 <= i < |load.requests| && load.requests[i].tenant == tenant
  }

  /** Every planned request was sent, and none came to anything but acceptance or throttling. */
  predicate Submitted(load: Load) {
    && |load.requests| == load.limits.planned
    && (forall r | r in load.requests ::
          r.sentAt.Some? && r.error == "" && ((r.status == Some(201) && r.eventId != "") || r.status == Some(429)))
    && (exists r :: r in load.requests && r.status == Some(201))
    && (load.limits.requireAllAccepted ==> forall r | r in load.requests :: r.status == Some(201))
    && (forall r | r in load.requests ::
          r.sentAt.Some? ==> r.sentAt.value - r.scheduledAt <= load.limits.maxScheduleLag)
    && 0.0 <= load.limits.maxScheduleLag
  }

  /** Every accepted event is one of its own, was received by its tenant and has one outcome, its success. */
  predicate Delivered(load: Load) {
    && (forall i, j | 0 <= i < j < |load.requests| && load.requests[i].status == load.requests[j].status == Some(201) ::
          load.requests[i].eventId != load.requests[j].eventId)
    && (forall r | r in load.requests && r.status == Some(201) ::
          r.eventId in load.receipts && load.receipts[r.eventId].tenant == r.tenant)
    && (forall r | r in load.requests && r.status == Some(201) ::
          exists j: nat :: j < |load.outcomes| && OnlyOutcome(load, r, j))
  }

  /** Of each tenant's accepted requests at least 95 in a hundred, and all, kept within its two limits. */
  ghost predicate Prompt(load: Load) {
    forall t: string ::
      var fairness := load.limits.fairness;
      var busy := fairness.Some? && fairness.value.busyTenant == t;
      var p95, max := if busy then fairness.value.busyP95 else load.limits.p95,
                      if busy then fairness.value.busyMax else load.limits.max;
      && 100 * |InTime(load, t, p95)| >= 95 * |AcceptedOf(load, t)|
      && InTime(load, t, max) == AcceptedOf(load, t)
  }

  predicate Prepared(load: Load) {
    && (load.limits.preload.Some? ==>
          var p := load.limits.preload.value;
          && p.expected >= 1001 && p.published == p.expected <= p.visible
          && p.inFlight == 0 && p.delayed == 0 && p.receiptsBeforeStart == 0)
    && (load.limits.fairness.Some? ==>
          var f := load.limits.fairness.value;
          && Asked(load, f.busyTenant) && |AcceptedOf(load, f.busyTenant)| == f.busyRequests
          && forall t | t in f.quietTenants ::
               && Asked(load, t) && |AcceptedOf(load, t)| == f.quietRequests
               && |Beside(load, t, f.minBusyPending)| >= f.minOverlapping)
  }

  ghost predicate Healthy(load: Load) {
    Submitted(load) && Delivered(load) && Prompt(load) && Prepared(load)
  }

  /** What the report counts as accepted, of a run without errors. */
  ghost predicate Plain(load: Load) {
    forall r | r in load.requests :: IsAccepted(r) <==> r.status == Some(201)
  }

  lemma AdmittedCount(load: Load, tenant: string)
    requires Plain(load)
    ensures |Admitted(load, tenant)| == |AcceptedOf(load, tenant)|
  {
    var both := (r: Request) => IsAccepted(r) && r.tenant == tenant;
    FilterTwice(load.requests, IsAccepted, (r: Request) => r.tenant == tenant, both);
    forall i: nat ensures i in AcceptedOf(load, tenant) <==> i < |load.requests| && both(load.requests[i]) {
      assert i < |load.requests| ==> load.requests[i] in load.requests;
    }
    PlacesCount(load.requests, both, AcceptedOf(load, tenant));
    hide Filter, IsAccepted;
  }

  lemma BesideCount(load: Load, tenant: string, pending: int)
    requires Plain(load)
    ensures Overlapped(load, tenant, pending) == |Beside(load, tenant, pending)|
  {
    var two := (r: Request) => IsAccepted(r) && r.tenant == tenant;
    var both := (r: Request) => IsAccepted(r) && r.tenant == tenant && r.busyPending >= pending;
    FilterTwice(load.requests, IsAccepted, (r: Request) => r.tenant == tenant, two);
    FilterTwice(load.requests, two, (r: Request) => r.busyPending >= pending, both);
    forall i: nat ensures i in Beside(load, tenant, pending) <==> i < |load.requests| && both(load.requests[i]) {
      assert i < |load.requests| ==> load.requests[i] in load.requests;
    }
    PlacesCount(load.requests, both, Beside(load, tenant, pending));
    hide Filter, IsAccepted;
  }

  /** A received request within `limit`. */
  predicate Quick(r: Request, receipts: map<string, Receipt>, limit: real) {
    Received(r, receipts) && receipts[r.eventId].at - r.sentAt.value <= limit
  }

  lemma {:induction false} WithinCount(requests: seq<Request>, receipts: map<string, Receipt>, limit: real)
    ensures Within(Latencies(requests, receipts), limit) ==
            |Filter(requests, (r: Request) => Quick(r, receipts, limit))|
    decreases |requests|
  {
    var quick := (r: Request) => Quick(r, receipts, limit);
    if requests != [] {
      WithinCount(requests[1..], receipts, limit);
      FilterHead(requests, quick);
      var rest := Latencies(requests[1..], receipts);
      if Received(requests[0], receipts) {
        assert ([receipts[requests[0].eventId].at - requests[0].sentAt.value] + rest)[1..] == rest;
      } else {
        assert [] + rest == rest;
      }
    }
    hide Filter, Received;
  }

  lemma {:induction false} FilterHead<T>(q: seq<T>, p: T -> bool)
    requires q != []
    ensures |Filter(q, p)| == (if p(q[0]) then 1 else 0) + |Filter(q[1..], p)|
    decreases |q|
  {
    var n := |q| - 1;
    if n > 0 {
      FilterHead(q[..n], p);
      assert q[..n][1..] == q[1..][..n - 1] && q[1..][n - 1] == q[n];
    }
  }

  lemma InTimeCount(load: Load, tenant: string, limit: real)
    requires Plain(load) && DeliveredToTenant(load)
    ensures Within(Latencies(Admitted(load, tenant), load.receipts), limit) == |InTime(load, tenant, limit)|
  {
    var two := (r: Request) => IsAccepted(r) && r.tenant == tenant;
    var quick := (r: Request) => Quick(r, load.receipts, limit);
    var both := (r: Request) => IsAccepted(r) && r.tenant == tenant && Quick(r, load.receipts, limit);
    FilterTwice(load.requests, IsAccepted, (r: Request) => r.tenant == tenant, two);
    FilterTwice(load.requests, two, quick, both);
    WithinCount(Admitted(load, tenant), load.receipts, limit);
    forall i: nat ensures i in InTime(load, tenant, limit) <==> i < |load.requests| && both(load.requests[i]) {
      assert i < |load.requests| ==> load.requests[i] in load.requests;
    }
    PlacesCount(load.requests, both, InTime(load, tenant, limit));
    hide Filter, IsAccepted, Latencies, Within;
  }

  /** A subset of the same size is the whole. */
  lemma AllInTime(load: Load, tenant: string, limit: real)
    ensures InTime(load, tenant, limit) == AcceptedOf(load, tenant) <==>
            |InTime(load, tenant, limit)| == |AcceptedOf(load, tenant)|
  {
    if |InTime(load, tenant, limit)| == |AcceptedOf(load, tenant)| {
      SameSize(InTime(load, tenant, limit), AcceptedOf(load, tenant));
    }
  }

  lemma OnTimeColumns(load: Load, t: string)
    requires Plain(load) && DeliveredToTenant(load)
    ensures OnTime(load, t) <==>
              100 * |InTime(load, t, P95Limit(load, t))| >= 95 * |AcceptedOf(load, t)|
              && InTime(load, t, MaxLimit(load, t)) == AcceptedOf(load, t)
  {
    var admitted := Admitted(load, t);
    var times := Latencies(admitted, load.receipts);
    FilterMembers(load.requests, IsAccepted);
    FilterMembers(Accepted(load), (r: Request) => r.tenant == t);
    LatenciesSize(admitted, load.receipts);
    AdmittedCount(load, t);
    InTimeCount(load, t, P95Limit(load, t));
    InTimeCount(load, t, MaxLimit(load, t));
    AllWithin(times, MaxLimit(load, t));
    AllInTime(load, t, MaxLimit(load, t));
    hide Filter, IsAccepted, Latencies, Within, P95Limit, MaxLimit, InTime, AcceptedOf;
  }

  lemma PromptColumns(load: Load)
    requires Plain(load) && DeliveredToTenant(load)
    ensures (forall t :: OnTime(load, t)) <==> Prompt(load)
  {
    forall t: string
      ensures OnTime(load, t) <==>
                100 * |InTime(load, t, P95Limit(load, t))| >= 95 * |AcceptedOf(load, t)|
                && InTime(load, t, MaxLimit(load, t)) == AcceptedOf(load, t)
    {
      OnTimeColumns(load, t);
    }
    hide OnTime, InTime, AcceptedOf, Plain, DeliveredToTenant;
  }

  lemma PreparedColumns(load: Load)
    requires Plain(load)
    ensures PreloadConfirmed(load) && FairlyLoaded(load) <==> Prepared(load)
  {
    forall t ensures HasTenant(load, t) <==> Asked(load, t) {
      HasIsAsked(load, t);
    }
    forall t ensures |Admitted(load, t)| == |AcceptedOf(load, t)| {
      AdmittedCount(load, t);
    }
    forall t, pending: int ensures Overlapped(load, t, pending) == |Beside(load, t, pending)| {
      BesideCount(load, t, pending);
    }
    hide HasTenant, Asked, Admitted, AcceptedOf, Overlapped, Beside, Plain;
  }

  lemma HasIsAsked(load: Load, tenant: string)
    ensures HasTenant(load, tenant) <==> Asked(load, tenant)
  {
    if HasTenant(load, tenant) {
      var r :| r in load.requests && r.tenant == tenant;
      var i :| 0 <= i < |load.requests| && load.requests[i] == r;
    }
    if Asked(load, tenant) {
      var i :| 0 <= i < |load.requests| && load.requests[i].tenant == tenant;
      assert load.requests[i] in load.requests;
    }
  }

  /** The accepted identifiers differ, by their places. */
  lemma DistinctColumns(load: Load)
    requires Plain(load)
    ensures Distinct(EventIds(Accepted(load))) <==>
            forall i, j | 0 <= i < j < |load.requests| &&
                          load.requests[i].status == load.requests[j].status == Some(201) ::
              load.requests[i].eventId != load.requests[j].eventId
  {
    var q, accepted := load.requests, Accepted(load);
    var k := Positions(q, IsAccepted);
    assert forall i | 0 <= i < |q| :: q[i] in q;
    if Distinct(EventIds(accepted)) {
      forall i, j | 0 <= i < j < |q| && q[i].status == q[j].status == Some(201) ensures q[i].eventId != q[j].eventId {
        EveryPosition(q, IsAccepted, i);
        EveryPosition(q, IsAccepted, j);
        var a :| 0 <= a < |k| && k[a] == i;
        var b :| 0 <= b < |k| && k[b] == j;
        assert EventIds(accepted)[a] != EventIds(accepted)[b];
      }
    }
    hide Filter, IsAccepted;
  }

  lemma SubmittedColumns(load: Load)
    ensures Submitted(load) <==>
              && AllSent(load) && (forall r | r in load.requests :: !IsError(r))
              && VolumeAccepted(load) && OnSchedule(load)
    ensures (forall r | r in load.requests :: !IsError(r)) ==> Plain(load)
  {
    forall r: Request
      ensures IsAccepted(r) && !IsError(r) <==> r.error == "" && r.status == Some(201) && r.eventId != ""
      ensures !IsAccepted(r) && !IsError(r) <==> r.error == "" && r.status == Some(429)
    {
      RequestClasses(r);
    }
    FilterSize(load.requests, IsAccepted);
    hide Filter, IsError;
  }

  /** The report passes exactly when the run was healthy: every planned request was sent on schedule,
      accepted or throttled; accepted events are distinct, each was received by its tenant and has
      exactly one stored outcome, a success of that tenant; and every tenant met its latency limits. */
  lemma PassedIffHealthy(load: Load)
    ensures (forall f :: !Wrong(load, f)) <==> Healthy(load)
  {
    hide Wrong, Distinct, OutcomesMatch, OnTime, Prompt, Prepared, PreloadConfirmed, FairlyLoaded, OnSchedule,
         Accepted, AllSent, VolumeAccepted, IsError, OnlyOutcome, Submitted;
    PassedIffParts(load);
    SubmittedColumns(load);
    if Submitted(load) || PartsHealthy(load) {
      assert Plain(load);
      DistinctColumns(load);
      PreparedColumns(load);
      DeliveredColumns(load);
      if DeliveredToTenant(load) { PromptColumns(load); }
    }
    hide Plain, DeliveredToTenant;
  }

  lemma DeliveredColumns(load: Load)
    requires Plain(load) && AllSent(load)
    ensures DeliveredToTenant(load) <==>
              forall r | r in load.requests && r.status == Some(201) ::
                r.eventId in load.receipts && load.receipts[r.eventId].tenant == r.tenant
    ensures OutcomesMatch(load) <==>
              forall r | r in load.requests && r.status == Some(201) ::
                exists j: nat :: j < |load.outcomes| && OnlyOutcome(load, r, j)
  {
    hide OnlyOutcome, IsAccepted;
  }

  /** What the report counts, by the places of the requests. */
  lemma CountsArePlaces(load: Load) returns (accepted: set<nat>, rejected: set<nat>, errors: set<nat>,
                                             delivered: set<nat>)
    ensures forall i: nat :: i in accepted <==>
              i < |load.requests| && load.requests[i].status == Some(201) && load.requests[i].eventId != ""
    ensures forall i: nat :: i in rejected <==> i < |load.requests| && load.requests[i].status == Some(429)
    ensures forall i: nat :: i in errors <==>
              i < |load.requests| &&
              !(load.requests[i].error == "" &&
                (load.requests[i].status == Some(429) ||
                 (load.requests[i].status == Some(201) && load.requests[i].eventId != "")))
    ensures forall i: nat :: i in delivered <==>
              i in accepted && load.requests[i].sentAt.Some? && load.requests[i].eventId in load.receipts &&
              load.receipts[load.requests[i].eventId].tenant == load.requests[i].tenant
    ensures |Accepted(load)| == |accepted| && |Filter(load.requests, IsError)| == |errors|
    ensures |Filter(load.requests, (r: Request) => r.status == Some(429))| == |rejected|
    ensures |Latencies(Accepted(load), load.receipts)| == |delivered|
  {
    var throttled := (r: Request) => r.status == Some(429);
    var received := (r: Request) => Received(r, load.receipts);
    var both := (r: Request) => IsAccepted(r) && Received(r, load.receipts);
    accepted := set i: nat | i < |load.requests| && IsAccepted(load.requests[i]);
    rejected := set i: nat | i < |load.requests| && throttled(load.requests[i]);
    errors := set i: nat | i < |load.requests| && IsError(load.requests[i]);
    delivered := set i: nat | i < |load.requests| && both(load.requests[i]);
    PlacesCount(load.requests, IsAccepted, accepted);
    PlacesCount(load.requests, throttled, rejected);
    PlacesCount(load.requests, IsError, errors);
    LatenciesCount(Accepted(load), load.receipts);
    FilterTwice(load.requests, IsAccepted, received, both);
    PlacesCount(load.requests, both, delivered);
    hide Filter, Latencies;
  }

  lemma {:induction false} LatenciesCount(requests: seq<Request>, receipts: map<string, Receipt>)
    ensures |Latencies(requests, receipts)| == |Filter(requests, (r: Request) => Received(r, receipts))|
    decreases |requests|
  {
    if requests != [] {
      LatenciesCount(requests[1..], receipts);
      FilterHead(requests, (r: Request) => Received(r, receipts));
    }
    hide Filter, Received;
  }

  // ---- which tenant sends which request ----

  /** `loadTenantIndex`; tenant 0 is the busy one when there is a busy rate. */
  function LoadTenantIndex(sequence: nat, tenantCount: nat, busyRate: Option<nat>): (index: nat)
    requires tenantCount >= 1 && Cycle(tenantCount, busyRate) >= 1
    ensures index < tenantCount
  {
    var slot := sequence % Cycle(tenantCount, busyRate);
    if busyRate.None? then slot
    else if slot < busyRate.value then 0
    else slot - busyRate.value + 1
  }

  /** The number of requests after which the tenants repeat. */
  function Cycle(tenantCount: nat, busyRate: Option<nat>): nat
    requires tenantCount >= 1
  {
    if busyRate.None? then tenantCount else busyRate.value + tenantCount - 1
  }

  /** How many of the first `n` requests are the tenant's. */
  function Turns(n: nat, tenant: nat, tenantCount: nat, busyRate: Option<nat>): nat
    requires tenantCount >= 1 && Cycle(tenantCount, busyRate) >= 1
  {
    if n == 0 then 0
    else Turns(n - 1, tenant, tenantCount, busyRate) +
         if LoadTenantIndex(n - 1, tenantCount, busyRate) == tenant then 1 else 0
  }

  /** The tenant's requests in one cycle are slots `FirstSlot` up to `FirstSlot + Share`. */
  function FirstSlot(tenant: nat, busyRate: Option<nat>): nat {
    if busyRate.None? || tenant == 0 then tenant else busyRate.value + tenant - 1
  }

  function Share(tenant: nat, busyRate: Option<nat>): nat {
    if busyRate.Some? && tenant == 0 then busyRate.value else 1
  }

  function Clamp(x: int, most: nat): nat {
    if x < 0 then 0 else if x > most then most else x
  }

  lemma NextInCycle(n: nat, cycle: nat)
    requires cycle >= 1
    ensures if n % cycle == cycle - 1 then (n + 1) / cycle == n / cycle + 1 && (n + 1) % cycle == 0
            else (n + 1) / cycle == n / cycle && (n + 1) % cycle == n % cycle + 1
  {
    var q, r := n / cycle, n % cycle;
    assert n + 1 == q * cycle + (r + 1);
    if r == cycle - 1 {
      DivModIs(n + 1, cycle, q + 1, 0);
    } else {
      DivModIs(n + 1, cycle, q, r + 1);
    }
  }

  lemma DivModIs(n: nat, cycle: nat, q: nat, r: nat)
    requires r < cycle && n == q * cycle + r
    ensures n / cycle == q && n % cycle == r
  {
    var d := n / cycle - q;
    assert n == (n / cycle) * cycle + n % cycle;
    assert d * cycle == r - n % cycle;
    MulGrows(d, cycle);
  }

  lemma MulGrows(d: int, n: nat)
    ensures d >= 1 ==> d * n >= n
    ensures d <= -1 ==> d * n + n <= 0
  {
    assert d >= 1 ==> (d - 1) * n >= 0;
    assert d <= -1 ==> (d + 1) * n <= 0;
  }

  /** After every `n` requests each tenant had its exact share: one turn in a cycle for a quiet tenant
      and `busyRate` turns for the busy one. */
  lemma {:induction false} TurnsAreShares(n: nat, tenant: nat, tenantCount: nat, busyRate: Option<nat>)
    requires tenantCount >= 1 && Cycle(tenantCount, busyRate) >= 1 && tenant < tenantCount
    ensures var cycle := Cycle(tenantCount, busyRate); var share := Share(tenant, busyRate);
            Turns(n, tenant, tenantCount, busyRate) ==
              (n / cycle) * share + Clamp(n % cycle - FirstSlot(tenant, busyRate), share)
  {
    var cycle, share, first := Cycle(tenantCount, busyRate), Share(tenant, busyRate), FirstSlot(tenant, busyRate);
    if n == 0 {
      DivModIs(0, cycle, 0, 0);
      NoShare(n / cycle, n % cycle - first, share);
      assert Turns(n, tenant, tenantCount, busyRate) == 0;
    } else {
      TurnsAreShares(n - 1, tenant, tenantCount, busyRate);
      TurnsOneMore(n, tenant, tenantCount, busyRate);
      NextInCycle(n - 1, cycle);
      ShareNext((n - 1) / cycle, (n - 1) % cycle, n / cycle, n % cycle, first, share, cycle);
    }
    hide *;
  }

  /** The slots of the tenant's requests. */
  lemma TurnsOneMore(n: nat, tenant: nat, tenantCount: nat, busyRate: Option<nat>)
    requires n >= 1 && tenantCount >= 1 && Cycle(tenantCount, busyRate) >= 1 && tenant < tenantCount
    ensures var slot, first := (n - 1) % Cycle(tenantCount, busyRate), FirstSlot(tenant, busyRate);
            && Turns(n, tenant, tenantCount, busyRate) == Turns(n - 1, tenant, tenantCount, busyRate) +
                 (if first <= slot < first + Share(tenant, busyRate) then 1 else 0)
            && first + Share(tenant, busyRate) <= Cycle(tenantCount, busyRate)
  {
    var slot := (n - 1) % Cycle(tenantCount, busyRate);
    assert LoadTenantIndex(n - 1, tenantCount, busyRate) ==
           if busyRate.None? then slot else if slot < busyRate.value then 0 else slot - busyRate.value + 1;
    hide LoadTenantIndex;
  }

  lemma NoShare(q: int, before: int, share: nat)
    requires q == 0 && before <= 0
    ensures q * share + Clamp(before, share) == 0
  {
  }

  lemma ShareNext(q: int, slot: int, next: int, nextSlot: int, first: nat, share: nat, cycle: nat)
    requires 0 <= slot < cycle && first + share <= cycle
    requires if slot == cycle - 1 then next == q + 1 && nextSlot == 0 else next == q && nextSlot == slot + 1
    ensures next * share + Clamp(nextSlot - first, share) ==
            q * share + Clamp(slot - first, share) + if first <= slot < first + share then 1 else 0
  {
    assert (q + 1) * share == q * share + share;
  }
}
