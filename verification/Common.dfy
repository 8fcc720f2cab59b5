/** What several modules need. */
module Common {

  function Min(a: int, b: int): int { if a < b then a else b }
  function Max(a: int, b: int): int { if a > b then a else b }

  /** Math.ceil(ms / 1000) */
  function CeilSeconds(ms: int): int { -((-ms) / 1000) }

  predicate Distinct<T(==)>(q: seq<T>) {
    forall i, j | 0 <= i < j < |q| :: q[i] != q[j]
  }
}
