/** packages/shared/src/backlog-metrics.ts: the gauges of the outbox and queue backlog. */
module BacklogMetrics {

  datatype BacklogSource = Outbox | Sqs

  /** A JavaScript number; an infinity is no backlog count either way. */
  datatype Number = NaN | Infinite | Finite(value: real)

  datatype Depth = Depth(visible: Number, inFlight: Number, delayed: Number)

  datatype Sample = OutboxCount(count: Number) | QueueDepth(depth: Depth)

  /** The success and timestamp gauges of one source. */
  datatype Health = Health(success: nat, timestamp: real)

  datatype Gauges = Gauges(pending: Number, queue: Depth, outbox: Health, sqs: Health)

  const MAX_SAFE_INTEGER := 9007199254740991

  const Fresh := Gauges(NaN, Depth(NaN, NaN, NaN), Health(0, 0.0), Health(0, 0.0))

  predicate IsBacklogCount(n: Number) {
    n.Finite? && n.value == n.value.Floor as real && 0 <= n.value.Floor <= MAX_SAFE_INTEGER
  }

  function Count(k: nat): Number { Finite(k as real) }

  /** The counts are the whole numbers from 0 to 2^53 - 1. */
  lemma CountsAreWhole(n: Number)
    ensures IsBacklogCount(n) <==> exists k: nat :: n == Count(k) && k <= 9007199254740991
  {
    if IsBacklogCount(n) {
      var k: nat := n.value.Floor;
      assert n == Count(k);
    }
  }

  function SourceOf(sample: Sample): BacklogSource {
    if sample.OutboxCount? then Outbox else Sqs
  }

  predicate Recordable(sample: Sample) {
    match sample
    case OutboxCount(count) => IsBacklogCount(count)
    case QueueDepth(depth) =>
      IsBacklogCount(depth.visible) && IsBacklogCount(depth.inFlight) && IsBacklogCount(depth.delayed)
  }

  function Recorded(g: Gauges, sample: Sample, at: real): Gauges {
    match sample
    case OutboxCount(count) => g.(pending := count, outbox := Health(1, at))
    case QueueDepth(depth) => g.(queue := depth, sqs := Health(1, at))
  }

  function Missed(g: Gauges, source: BacklogSource): Gauges {
    if source.Outbox? then g.(outbox := g.outbox.(success := 0)) else g.(sqs := g.sqs.(success := 0))
  }

  class Metrics {
    var pending: Number
    var queue: Depth
    var outbox: Health
    var sqs: Health

    function Values(): Gauges
      reads this
    {
      Gauges(pending, queue, outbox, sqs)
    }

    constructor ()
      ensures Values() == Fresh
    {
      pending := NaN;
      queue := Depth(NaN, NaN, NaN);
      outbox := Health(0, 0.0);
      sqs := Health(0, 0.0);
    }

    /** A refused count throws before any gauge is set. */
    method RecordOutbox(count: Number, at: real) returns (ok: bool)
      modifies this
      ensures ok <==> Recordable(OutboxCount(count))
      ensures ok <==> exists k: nat :: count == Count(k) && k <= 9007199254740991
      ensures queue == old(queue) && sqs == old(sqs)
      ensures if ok then pending == count && outbox == Health(1, at)
              else pending == old(pending) && outbox == old(outbox)
      ensures Values() == if ok then Recorded(old(Values()), OutboxCount(count), at) else old(Values())
    {
      CountsAreWhole(count);
      if !IsBacklogCount(count) {
        return false;
      }
      pending := count;
      outbox := Health(1, at);
      ok := true;
    }

    /** All three counts are checked before the first is set. */
    method RecordQueue(depth: Depth, at: real) returns (ok: bool)
      modifies this
      ensures ok <==> Recordable(QueueDepth(depth))
      ensures ok <==> IsBacklogCount(depth.visible) && IsBacklogCount(depth.inFlight) && IsBacklogCount(depth.delayed)
      ensures pending == old(pending) && outbox == old(outbox)
      ensures if ok then queue == depth && sqs == Health(1, at) else queue == old(queue) && sqs == old(sqs)
      ensures Values() == if ok then Recorded(old(Values()), QueueDepth(depth), at) else old(Values())
    {
      var values := [depth.visible, depth.inFlight, depth.delayed];
      for i := 0 to |values|
        invariant forall k | 0 <= k < i :: IsBacklogCount(values[k])
        invariant Values() == old(Values())
      {
        if !IsBacklogCount(values[i]) {
          return false;
        }
      }
      assert IsBacklogCount(values[0]) && IsBacklogCount(values[1]) && IsBacklogCount(values[2]);
      queue := queue.(visible := depth.visible);
      queue := queue.(inFlight := depth.inFlight);
      queue := queue.(delayed := depth.delayed);
      sqs := Health(1, at);
      ok := true;
    }

    method RecordFailure(source: BacklogSource)
      modifies this
      ensures Values() == Missed(old(Values()), source)
      ensures pending == old(pending) && queue == old(queue)
      ensures outbox == if source.Outbox? then Health(0, old(outbox).timestamp) else old(outbox)
      ensures sqs == if source.Outbox? then old(sqs) else Health(0, old(sqs).timestamp)
    {
      if source.Outbox? {
        outbox := outbox.(success := 0);
      } else {
        sqs := sqs.(success := 0);
      }
    }
  }
}
