/** packages/worker/src/delivery/queue-confirmations.ts: which receipts of a batch SQS confirmed.
    Entry i of a request has the identifier String(i); an entry of the answer may lack its Id. */
module QueueConfirmations {
  import opened Store
  import Orders

  type Receipt = nat

  datatype BatchResult = BatchResult(successful: seq<Option<string>>, failed: seq<Option<string>>)

  const DIGITS := "0123456789"

  /** String(n) */
  function IndexText(n: nat): (text: string)
    ensures |text| >= 1
  {
    if n < 10 then [DIGITS[n]] else IndexText(n / 10) + [DIGITS[n % 10]]
  }

  /** The digits of the number, the leading one first and not zero unless it is the only one. */
  lemma {:induction false} IndexTextIsDecimal(n: nat)
    ensures var text := IndexText(n);
            && (forall c | c in text :: '0' <= c <= '9') && (text[0] == '0' ==> n == 0 && |text| == 1)
            && n % 10 == text[|text| - 1] as int - '0' as int
            && (n >= 10 ==> text[..|text| - 1] == IndexText(n / 10)) && (n < 10 ==> |text| == 1)
  {
    assert forall d: nat | d < 10 :: DIGITS[d] as int == '0' as int + d;
    if n >= 10 {
      IndexTextIsDecimal(n / 10);
      var front := IndexText(n / 10);
      assert IndexText(n) == front + [DIGITS[n % 10]];
      assert forall c | c in IndexText(n) :: c in front || c == DIGITS[n % 10];
    }
  }

  lemma {:induction false} IndexTextInjective(m: nat, n: nat)
    requires IndexText(m) == IndexText(n)
    ensures m == n
  {
    var a, b := IndexText(m), IndexText(n);
    assert a[|a| - 1] == DIGITS[m % 10] && b[|b| - 1] == DIGITS[n % 10];
    assert m % 10 == n % 10;
    if m >= 10 && n >= 10 {
      assert a[..|a| - 1] == IndexText(m / 10) && b[..|b| - 1] == IndexText(n / 10);
      IndexTextInjective(m / 10, n / 10);
    }
  }

  predicate Confirms(result: BatchResult, i: nat) {
    Some(IndexText(i)) in result.successful && Some(IndexText(i)) !in result.failed
  }

  /** The receipts whose own entry is reported successful and not failed. */
  ghost function Confirmed(receipts: seq<Receipt>, result: BatchResult): set<Receipt> {
    set i | 0 <= i < |receipts| && Confirms(result, i) :: receipts[i]
  }

  /** The Map from identifiers to receipts. */
  method Requested(receipts: seq<Receipt>) returns (requested: map<string, Receipt>)
    ensures forall i | 0 <= i < |receipts| :: IndexText(i) in requested && requested[IndexText(i)] == receipts[i]
    ensures forall id | id in requested :: exists i :: 0 <= i < |receipts| && id == IndexText(i)
  {
    hide IndexText;
    requested := map[];
    for k := 0 to |receipts|
      invariant forall i | 0 <= i < k :: IndexText(i) in requested && requested[IndexText(i)] == receipts[i]
      invariant forall id | id in requested :: exists i :: 0 <= i < k && id == IndexText(i)
    {
      forall i | 0 <= i < k ensures IndexText(i) != IndexText(k) {
        if IndexText(i) == IndexText(k) { IndexTextInjective(i, k); }
      }
      requested := requested[IndexText(k) := receipts[k]];
    }
  }

  method ConfirmedBatchReceipts(receipts: seq<Receipt>, result: BatchResult) returns (confirmed: set<Receipt>)
    ensures confirmed == Confirmed(receipts, result)
    ensures forall r :: r in confirmed <==>
              exists i :: 0 <= i < |receipts| && receipts[i] == r &&
                          Some(IndexText(i)) in result.successful && Some(IndexText(i)) !in result.failed
  {
    hide IndexText;
    var requested := Requested(receipts);
    confirmed := {};
    for k := 0 to |result.successful|
      invariant forall r | r in confirmed :: r in Confirmed(receipts, result)
      invariant forall i | 0 <= i < |receipts| && Confirms(result, i) && Some(IndexText(i)) in result.successful[..k] ::
                  receipts[i] in confirmed
    {
      var entry := result.successful[k];
      if entry.Some? && entry !in result.failed && entry.value in requested {
        ghost var i :| 0 <= i < |receipts| && entry.value == IndexText(i);
        assert Confirms(result, i);
        confirmed := confirmed + {requested[entry.value]};
      }
    }
    assert result.successful[..|result.successful|] == result.successful;
  }

  /** A partial or failed answer confirms fewer receipts than were asked for. */
  lemma AllConfirmed(receipts: seq<Receipt>, result: BatchResult)
    requires forall i, j | 0 <= i < j < |receipts| :: receipts[i] != receipts[j]
    ensures |Confirmed(receipts, result)| == |receipts| <==> forall i | 0 <= i < |receipts| :: Confirms(result, i)
  {
    var all := set i | 0 <= i < |receipts| :: receipts[i];
    Count(receipts);
    assert Confirmed(receipts, result) <= all;
    if forall i | 0 <= i < |receipts| :: Confirms(result, i) {
      assert Confirmed(receipts, result) == all;
    } else {
      var i :| 0 <= i < |receipts| && !Confirms(result, i);
      assert receipts[i] in all && receipts[i] !in Confirmed(receipts, result);
      Orders.ProperSubsetSize(Confirmed(receipts, result), all);
    }
  }

  lemma {:induction false} Count(receipts: seq<Receipt>)
    requires forall i, j | 0 <= i < j < |receipts| :: receipts[i] != receipts[j]
    ensures |set i | 0 <= i < |receipts| :: receipts[i]| == |receipts|
  {
    var all := set i | 0 <= i < |receipts| :: receipts[i];
    if receipts == [] {
      assert all == {};
    } else {
      var n := |receipts| - 1;
      var front := receipts[..n];
      Count(front);
      var some := set i | 0 <= i < |front| :: front[i];
      assert forall i | 0 <= i < n :: front[i] == receipts[i];
      assert all == some + {receipts[n]};
    }
  }
}
