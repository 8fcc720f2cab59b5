/** packages/worker/src/delivery/tenant-turns.ts: the turns of a receive cycle. */
module TenantTurns {
  import opened Common
  import opened Store

  function Count(asked: seq<TenantId>, t: TenantId): nat {
    if asked == [] then 0
    else Count(asked[..|asked| - 1], t) + if asked[|asked| - 1] == t then 1 else 0
  }

  lemma {:induction false} CountIsMultiplicity(asked: seq<TenantId>, t: TenantId)
    ensures Count(asked, t) == multiset(asked)[t]
  {
    if asked != [] {
      CountIsMultiplicity(asked[..|asked| - 1], t);
      assert asked == asked[..|asked| - 1] + [asked[|asked| - 1]];
    }
  }

  class TenantTurns {
    var used: map<TenantId, nat>
    const limit: int
    /** The tenants that asked for a turn so far. */
    ghost var asked: seq<TenantId>

    ghost predicate Valid()
      reads this
    {
      && limit >= 1
      && forall t :: Used(t) == Min(limit, Count(asked, t))
    }

    function Used(t: TenantId): nat
      reads this
    {
      if t in used then used[t] else 0
    }

    constructor Make(limit: int)
      requires limit >= 1
      ensures Valid() && asked == [] && this.limit == limit
    {
      used, asked := map[], [];
      this.limit := limit;
    }

    /** A limit that is not positive is an error. */
    static method Create(limit: int) returns (turns: Option<TenantTurns>)
      ensures turns.Some? <==> limit >= 1
      ensures turns.Some? ==>
                fresh(turns.value) && turns.value.Valid() && turns.value.asked == [] && turns.value.limit == limit
    {
      if limit < 1 {
        return None;
      }
      var made := new TenantTurns.Make(limit);
      turns := Some(made);
    }

    /** The first `limit` requests of a tenant get a turn; the requests of others do not matter. */
    method Take(t: TenantId) returns (taken: bool)
      requires Valid()
      modifies this`used, this`asked
      ensures Valid() && asked == old(asked) + [t]
      ensures taken <==> Count(old(asked), t) < limit
      ensures taken <==> multiset(old(asked))[t] < limit
    {
      var count := if t in used then used[t] else 0;
      assert count == Used(t);
      CountIsMultiplicity(asked, t);
      assert (asked + [t])[..|asked|] == asked;
      asked := asked + [t];
      if count >= limit {
        return false;
      }
      used := used[t := count + 1];
      taken := true;
    }
  }
}
