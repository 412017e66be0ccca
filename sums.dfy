/** Sums over sequences (in order) and over finite sets (in no particular order). */
module Sums {

  /** The elements of a sequence, as a set. */
  function Elems<T>(xs: seq<T>): set<T>
  {
    set x | x in xs
  }

  /** No element occurs twice. */
  predicate NoDup<T(==)>(xs: seq<T>)
  {
    forall i, j :: 0 <= i < j < |xs| ==> xs[i] != xs[j]
  }

  /** Sum of g over xs, accumulated from the front as a loop would. */
  function SeqSum<T>(xs: seq<T>, g: T -> real): real
  {
    if xs == [] then 0.0 else SeqSum(xs[..|xs| - 1], g) + g(xs[|xs| - 1])
  }

  /** Sum of g over a finite set; the order of summation is left open. */
  ghost function SetSum<T>(s: set<T>, g: T -> real): real
  {
    if s == {} then 0.0 else var x :| x in s; g(x) + SetSum(s - {x}, g)
  }

  /** Any element may be taken out first: the set sum does not depend on an order. */
  lemma {:induction false} SetSumRemove<T>(s: set<T>, g: T -> real, y: T)
    requires y in s
    ensures SetSum(s, g) == g(y) + SetSum(s - {y}, g)
  {
    var x :| x in s && SetSum(s, g) == g(x) + SetSum(s - {x}, g);
    if x != y {
      SetSumRemove(s - {x}, g, y);
      SetSumRemove(s - {y}, g, x);
      assert s - {x} - {y} == s - {y} - {x};
    }
  }

  /** Adding one new element adds its value. */
  lemma SetSumAdd<T>(s: set<T>, g: T -> real, y: T)
    requires y !in s
    ensures SetSum(s + {y}, g) == SetSum(s, g) + g(y)
  {
    SetSumRemove(s + {y}, g, y);
    assert s + {y} - {y} == s;
  }

  /** Summing a duplicate-free sequence in its order gives the order-free sum over its elements. */
  lemma {:induction false} SeqSumIsSetSum<T>(xs: seq<T>, g: T -> real)
    requires NoDup(xs)
    ensures SeqSum(xs, g) == SetSum(Elems(xs), g)
  {
    if xs != [] {
      var n := |xs| - 1;
      var front := xs[..n];
      assert NoDup(front);
      SeqSumIsSetSum(front, g);
      assert xs[n] !in Elems(front);
      assert Elems(xs) == Elems(front) + {xs[n]} by {
        assert xs == front + [xs[n]];
      }
      SetSumAdd(Elems(front), g, xs[n]);
    }
  }

  /** Appending one element adds its value (the step of a summing loop). */
  lemma SeqSumSnoc<T>(xs: seq<T>, x: T, g: T -> real)
    ensures SeqSum(xs + [x], g) == SeqSum(xs, g) + g(x)
  {
    assert (xs + [x])[..|xs|] == xs;
  }

  /** Two duplicate-free sequences with no common element concatenate without duplicates. */
  lemma NoDupConcat<T>(a: seq<T>, b: seq<T>)
    requires NoDup(a) && NoDup(b)
    requires forall x :: x in a ==> x !in b
    ensures NoDup(a + b)
  {
    forall i, j | 0 <= i < j < |a + b|
      ensures (a + b)[i] != (a + b)[j]
    {
      if i < |a| && |a| <= j {
        assert (a + b)[i] in a && (a + b)[j] in b;
      }
    }
  }
}
