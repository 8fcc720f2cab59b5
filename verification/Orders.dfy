/** Sorting of finite sets by a strict total order, and the few facts about sorted
    sequences that the queries of the repositories (ORDER BY ... LIMIT) rely on. */
module Orders {

  /** `less` is a strict total order on the elements of `s`. */
  ghost predicate TotalOn<T(!new)>(less: (T, T) -> bool, s: set<T>) {
    && (forall x | x in s :: !less(x, x))
    && (forall x, y | x in s && y in s && x != y :: less(x, y) || less(y, x))
    && (forall x, y, z | x in s && y in s && z in s && less(x, y) && less(y, z) :: less(x, z))
  }

  ghost predicate SortedBy<T(!new)>(less: (T, T) -> bool, q: seq<T>) {
    forall i, j | 0 <= i < j < |q| :: less(q[i], q[j])
  }

  ghost function Elements<T>(q: seq<T>): set<T> {
    set x | x in q
  }

  ghost predicate IsLeast<T(!new)>(less: (T, T) -> bool, s: set<T>, m: T) {
    m in s && forall x | x in s && x != m :: less(m, x)
  }

  lemma LeastExists<T(!new)>(less: (T, T) -> bool, s: set<T>)
    requires TotalOn(less, s) && s != {}
    ensures exists m :: IsLeast(less, s, m)
  {
    var m :| m in s;
    if s == {m} {
      assert IsLeast(less, s, m);
    } else {
      LeastExists(less, s - {m});
      var n :| IsLeast(less, s - {m}, n);
      assert IsLeast(less, s, if less(m, n) then m else n);
    }
  }

  ghost function Least<T(!new)>(less: (T, T) -> bool, s: set<T>): (m: T)
    requires TotalOn(less, s) && s != {}
    ensures IsLeast(less, s, m)
  {
    LeastExists(less, s);
    var m :| IsLeast(less, s, m);
    m
  }

  /** The elements of `s`, each once, in increasing order. */
  ghost function Sort<T(!new)>(less: (T, T) -> bool, s: set<T>): (q: seq<T>)
    requires TotalOn(less, s)
    ensures |q| == |s|
    ensures forall x :: x in q <==> x in s
    ensures SortedBy(less, q)
    decreases |s|
  {
    if s == {} then [] else
      var m := Least(less, s);
      [m] + Sort(less, s - {m})
  }

  lemma SameLeast<T(!new)>(less: (T, T) -> bool, s: set<T>, p: seq<T>, q: seq<T>)
    requires TotalOn(less, s) && SortedBy(less, p) && SortedBy(less, q)
    requires p != [] && q != []
    requires forall x :: x in p <==> x in s
    requires forall x :: x in q <==> x in s
    ensures p[0] == q[0]
  {
    var a, b := p[0], q[0];
    assert a in q && b in p;
    assert a == b || less(b, a);
    assert a == b || less(a, b);
  }

  lemma TailElements<T(!new)>(less: (T, T) -> bool, s: set<T>, p: seq<T>, x: T)
    requires TotalOn(less, s) && p != [] && SortedBy(less, p)
    requires forall y :: y in p <==> y in s
    ensures x in p[1..] <==> x in s && x != p[0]
  {
    if x in p[1..] {
      var i :| 0 <= i < |p| - 1 && p[1..][i] == x;
      assert p[i + 1] == x && less(p[0], p[i + 1]);
    }
  }

  lemma SortedTail<T(!new)>(less: (T, T) -> bool, s: set<T>, p: seq<T>)
    requires TotalOn(less, s) && p != [] && SortedBy(less, p)
    requires forall x :: x in p <==> x in s
    ensures TotalOn(less, s - {p[0]}) && SortedBy(less, p[1..])
    ensures forall x :: x in p[1..] <==> x in s - {p[0]}
  {
    forall x ensures x in p[1..] <==> x in s - {p[0]} {
      TailElements(less, s, p, x);
    }
  }

  /** A sorted sequence is determined by its elements. */
  lemma {:induction false} SortedUnique<T(!new)>(less: (T, T) -> bool, s: set<T>, p: seq<T>, q: seq<T>)
    requires TotalOn(less, s)
    requires forall x :: x in p <==> x in s
    requires forall x :: x in q <==> x in s
    requires SortedBy(less, p) && SortedBy(less, q)
    ensures p == q
    decreases |p|
  {
    hide TotalOn, SortedBy;
    assert p == [] <==> q == [] by {
      assert p != [] ==> p[0] in q;
      assert q != [] ==> q[0] in p;
    }
    if p != [] {
      SameLeast(less, s, p, q);
      SortedTail(less, s, p);
      SortedTail(less, s, q);
      SortedUnique(less, s - {p[0]}, p[1..], q[1..]);
      assert p == [p[0]] + p[1..] && q == [p[0]] + q[1..];
    }
  }

  ghost function Above<T(!new)>(less: (T, T) -> bool, s: set<T>, m: T): set<T> {
    set x | x in s && less(m, x)
  }

  lemma AboveIsAfter<T(!new)>(less: (T, T) -> bool, s: set<T>, q: seq<T>, i: nat, x: T)
    requires TotalOn(less, s) && SortedBy(less, q) && i < |q|
    requires forall y :: y in q <==> y in s
    ensures x in q[i + 1..] <==> x in s && less(q[i], x)
  {
    var m := q[i];
    assert m in s;
    if x in q[i + 1..] {
      var k :| 0 <= k < |q| - i - 1 && q[i + 1..][k] == x;
      assert q[i + 1 + k] == x && x in q;
    } else if x in s {
      assert x in q;
      var k :| 0 <= k < |q| && q[k] == x;
      assert k < i ==> less(x, m);
    }
  }

  lemma SortedSuffix<T(!new)>(less: (T, T) -> bool, s: set<T>, q: seq<T>, n: nat)
    requires TotalOn(less, s) && SortedBy(less, q) && n <= |q|
    ensures SortedBy(less, q[n..])
    ensures forall part | part <= s :: TotalOn(less, part)
  {
  }

  /** The elements after position `i` are exactly the elements greater than the one at `i`. */
  lemma SortAfter<T(!new)>(less: (T, T) -> bool, s: set<T>, i: nat)
    requires TotalOn(less, s) && i < |s|
    ensures TotalOn(less, Above(less, s, Sort(less, s)[i]))
    ensures Sort(less, Above(less, s, Sort(less, s)[i])) == Sort(less, s)[i + 1..]
  {
    hide TotalOn, SortedBy;
    var q := Sort(less, s);
    var after := Above(less, s, q[i]);
    SortedSuffix(less, s, q, i + 1);
    assert after <= s;
    forall x ensures x in q[i + 1..] <==> x in after {
      AboveIsAfter(less, s, q, i, x);
    }
    hide Sort;
    SortedUnique(less, after, Sort(less, after), q[i + 1..]);
  }

  /** A prefix of the sorted elements is closed under smaller elements. */
  lemma PrefixClosed<T(!new)>(less: (T, T) -> bool, s: set<T>, n: nat, x: T, y: T)
    requires TotalOn(less, s) && n <= |s|
    requires x in Sort(less, s)[..n] && y in s && less(y, x)
    ensures y in Sort(less, s)[..n]
  {
    var q := Sort(less, s);
    var i :| 0 <= i < n && q[..n][i] == x;
    var j :| 0 <= j < |q| && q[j] == y;
    if j < i {
      assert q[..n][j] == y;
    }
  }

  /** The distinct elements of a duplicate-free sequence are as many as its positions. */
  lemma {:induction false} DistinctCount<T(!new)>(q: seq<T>)
    requires forall i, j | 0 <= i < j < |q| :: q[i] != q[j]
    ensures |Elements(q)| == |q|
  {
    if q == [] {
      assert Elements(q) == {};
    } else {
      var n := |q| - 1;
      DistinctCount(q[..n]);
      assert q[n] !in Elements(q[..n]);
      assert Elements(q) == Elements(q[..n]) + {q[n]} by {
        assert q == q[..n] + [q[n]];
      }
    }
  }

  lemma {:induction false} SubsetSize<T>(a: set<T>, b: set<T>)
    requires a <= b
    ensures |a| <= |b|
  {
    if a != {} {
      var x :| x in a;
      SubsetSize(a - {x}, b - {x});
    }
  }

  lemma ProperSubsetSize<T>(a: set<T>, b: set<T>)
    requires a < b
    ensures |a| < |b|
  {
    var x :| x in b && x !in a;
    SubsetSize(a + {x}, b);
  }
}
