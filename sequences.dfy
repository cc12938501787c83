/**
 * Order-preserving selection from a sequence: the model of `Array.prototype.filter`.
 */
module Sequences {

  /** `sub` is `s` with some elements left out and the others kept in their original order. */
  predicate Subsequence<T(==)>(sub: seq<T>, s: seq<T>)
    decreases |s|
  {
    if sub == [] then true
    else if s == [] then false
    else if sub[0] == s[0] then Subsequence(sub[1..], s[1..])
    else Subsequence(sub, s[1..])
  }

  /**
   * `s.filter(p)`: the elements of `s` that satisfy `p`, in order. The result is
   * characterised completely: it is a subsequence of `s`, every element satisfies
   * `p`, and every element of `s` satisfying `p` occurs in it exactly as often as in `s`.
   */
  function Filter<T(==)>(p: T -> bool, s: seq<T>): (r: seq<T>)
    ensures forall x :: x in r ==> x in s && p(x)
    ensures forall x :: x in s && p(x) ==> multiset(r)[x] == multiset(s)[x]
    ensures Subsequence(r, s)
    ensures |r| <= |s|
  {
    if s == [] then []
    else
      assert s == [s[0]] + s[1..];
      var rest := Filter(p, s[1..]);
      if p(s[0]) then
        [s[0]] + rest
      else
        assert rest != [] ==> rest[0] in rest;
        rest
  }

  /** Filtering with a predicate every element already satisfies gives the sequence back. */
  lemma {:induction false} FilterKeepsAll<T>(p: T -> bool, s: seq<T>)
    requires forall x :: x in s ==> p(x)
    ensures Filter(p, s) == s
  {
    if s != [] {
      assert s[0] in s;
      forall x | x in s[1..] ensures p(x) {
        assert x in s;
      }
      FilterKeepsAll(p, s[1..]);
    }
  }

  /**
   * Filtering with `p` and with its complement `q` splits `s` in two: the lengths
   * add up to `|s|` and the elements together are exactly those of `s`.
   */
  lemma {:induction false} FilterPartition<T>(p: T -> bool, q: T -> bool, s: seq<T>)
    requires forall x :: q(x) == !p(x)
    ensures |Filter(p, s)| + |Filter(q, s)| == |s|
    ensures multiset(Filter(p, s)) + multiset(Filter(q, s)) == multiset(s)
  {
    if s != [] {
      FilterPartition(p, q, s[1..]);
      assert s == [s[0]] + s[1..];
    }
  }
}
