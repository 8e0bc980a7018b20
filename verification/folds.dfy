/**
 * `Array.prototype.reduce((total, x) => total + f(x), 0)`, and the plain sum
 * it is meant to compute.
 */
module Folds {

  /** The reduce as the source runs it: left to right, carrying the running total. */
  function Reduce<T>(s: seq<T>, f: T -> int, total: int): int
    decreases |s|
  {
    if s == [] then total else Reduce(s[1..], f, total + f(s[0]))
  }

  /** The sum of `f` over `s`, built up one element at a time from the back. */
  function Sum<T>(s: seq<T>, f: T -> int): int
    decreases |s|
  {
    if s == [] then 0 else Sum(s[..|s| - 1], f) + f(s[|s| - 1])
  }

  /** Appending one element adds its value to the sum. */
  lemma SumSnoc<T>(s: seq<T>, x: T, f: T -> int)
    ensures Sum(s + [x], f) == Sum(s, f) + f(x)
  {
    assert (s + [x])[..|s|] == s;
  }

  /** The sum of three elements, written out. */
  lemma SumThree<T>(a: T, b: T, c: T, f: T -> int)
    ensures Sum([a, b, c], f) == f(a) + f(b) + f(c)
  {
    SumSnoc([], a, f);
    SumSnoc([a], b, f);
    SumSnoc([a, b], c, f);
    assert [] + [a] == [a] && [a] + [b] == [a, b] && [a, b] + [c] == [a, b, c];
  }

  /** The sum can also be taken apart at the front. */
  lemma {:induction false} SumCons<T>(s: seq<T>, f: T -> int)
    requires s != []
    ensures Sum(s, f) == f(s[0]) + Sum(s[1..], f)
    decreases |s|
  {
    if |s| == 1 {
      assert s[..0] == [] && s[1..] == [];
    } else {
      var init := s[..|s| - 1];
      SumCons(init, f);
      assert init[0] == s[0];
      assert init[1..] == s[1..][..|s| - 2];
      assert s[1..][|s| - 2] == s[|s| - 1];
    }
  }

  /** The reduce with start value `total` is `total` plus the sum: it adds up every element once. */
  lemma {:induction false} ReduceIsSum<T>(s: seq<T>, f: T -> int, total: int)
    ensures Reduce(s, f, total) == total + Sum(s, f)
    decreases |s|
  {
    if s != [] {
      ReduceIsSum(s[1..], f, total + f(s[0]));
      SumCons(s, f);
    }
  }
}
