/** A value that may be missing. */
module Options {
  datatype Option<+T> = None | Some(value: T)
}

/** Lists: taking a set of elements out of a sequence, keeping the order of the rest. */
module Seqs {

  function Without<T(!new,==)>(q: seq<T>, s: set<T>): (r: seq<T>)
    ensures forall x :: x in r <==> x in q && x !in s
    ensures |r| <= |q|
  {
    if q == [] then []
    else if q[0] in s then Without(q[1..], s)
    else [q[0]] + Without(q[1..], s)
  }

  lemma Assoc<T>(x: seq<T>, y: seq<T>, z: seq<T>)
    ensures (x + y) + z == x + (y + z)
  {
  }

  lemma TakeMore<T>(q: seq<T>, i: nat, n: nat)
    requires i + n <= |q|
    ensures q[..i + n] == q[..i] + q[i..i + n]
  {
  }

  lemma SliceMore<T>(q: seq<T>, i: nat, k: nat)
    requires i <= k < |q|
    ensures q[i..k + 1] == q[i..k] + [q[k]]
  {
  }

  predicate Distinct<T(==)>(q: seq<T>) {
    forall i, j :: 0 <= i < j < |q| ==> q[i] != q[j]
  }

  lemma {:induction false} WithoutTwice<T(!new)>(q: seq<T>, a: set<T>, b: set<T>)
    ensures Without(Without(q, a), b) == Without(q, a + b)
  {
    if q != [] {
      WithoutTwice(q[1..], a, b);
      if q[0] !in a {
        assert Without(q, a)[1..] == Without(q[1..], a);
      }
    }
  }

  lemma {:induction false} WithoutNone<T(!new)>(q: seq<T>, s: set<T>)
    requires forall x :: x in q ==> x !in s
    ensures Without(q, s) == q
  {
    if q != [] {
      assert q[0] in q;
      WithoutNone(q[1..], s);
    }
  }

  lemma {:induction false} WithoutAll<T(!new)>(q: seq<T>, s: set<T>)
    requires forall x :: x in q ==> x in s
    ensures Without(q, s) == []
  {
    if q != [] {
      assert q[0] in q;
      WithoutAll(q[1..], s);
    }
  }

  lemma {:induction false} WithoutDistinct<T(!new)>(q: seq<T>, s: set<T>)
    requires Distinct(q)
    ensures Distinct(Without(q, s))
  {
    if q != [] {
      WithoutDistinct(q[1..], s);
    }
  }

  /** Taking out the head of a list of distinct elements leaves its tail. */
  lemma WithoutHead<T(!new)>(q: seq<T>)
    requires q != [] && Distinct(q)
    ensures Without(q, {q[0]}) == q[1..]
  {
    WithoutNone(q[1..], {q[0]});
  }

  lemma DistinctCons<T>(x: T, q: seq<T>)
    requires Distinct(q) && x !in q
    ensures Distinct([x] + q)
  {
  }

  function Elements<T>(q: seq<T>): set<T> {
    set x | x in q
  }

  /** How often an element occurs. */
  function Occurs<T(==)>(q: seq<T>, x: T): (n: nat)
    ensures n == 0 <==> x !in q
  {
    if q == [] then 0 else (if q[0] == x then 1 else 0) + Occurs(q[1..], x)
  }

  lemma {:induction false} OccursSnoc<T>(q: seq<T>, y: T, x: T)
    ensures Occurs(q + [y], x) == Occurs(q, x) + if y == x then 1 else 0
  {
    if q == [] {
      assert [] + [y] == [y];
    } else {
      OccursSnoc(q[1..], y, x);
      assert (q + [y])[1..] == q[1..] + [y];
    }
  }
}
