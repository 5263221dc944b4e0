/** `Array.prototype.filter`, counting, and `reduce` as a left-to-right sum. */
module Seqs {

  /** `sub` is `s` with some elements left out, the others in their original order. */
  predicate IsSubsequence<T(==)>(sub: seq<T>, s: seq<T>)
    decreases |s|
  {
    if sub == [] then true
    else if s == [] then false
    else if sub[0] == s[0] then IsSubsequence(sub[1..], s[1..])
    else IsSubsequence(sub, s[1..])
  }

  lemma {:induction false} SubsequenceLength<T>(sub: seq<T>, s: seq<T>)
    requires IsSubsequence(sub, s)
    ensures |sub| <= |s|
    decreases |s|
  {
    if sub != [] {
      if sub[0] == s[0] {
        SubsequenceLength(sub[1..], s[1..]);
      } else {
        SubsequenceLength(sub, s[1..]);
      }
    }
  }

  /** How many elements of `s` satisfy `p`. */
  function Count<T>(s: seq<T>, p: T -> bool): nat {
    if s == [] then 0 else (if p(s[0]) then 1 else 0) + Count(s[1..], p)
  }

  /** `s.filter(p)`: exactly the elements that satisfy `p`, in their original order. */
  function Filter<T(==)>(s: seq<T>, p: T -> bool): (r: seq<T>)
    ensures IsSubsequence(r, s)
    ensures forall x :: x in r ==> x in s && p(x)
    ensures forall x :: x in s && p(x) ==> x in r
    ensures |r| == Count(s, p)
  {
    if s == [] then []
    else if p(s[0]) then [s[0]] + Filter(s[1..], p)
    else Filter(s[1..], p)
  }

  /** When every element passes, `filter` gives back the whole list. */
  lemma {:induction false} FilterKeepsAll<T>(s: seq<T>, p: T -> bool)
    requires forall x :: x in s ==> p(x)
    ensures Filter(s, p) == s
  {
    if s != [] {
      FilterKeepsAll(s[1..], p);
    }
  }

  /** When no element passes, `filter` gives the empty list. */
  lemma {:induction false} FilterKeepsNone<T>(s: seq<T>, p: T -> bool)
    requires forall x :: x in s ==> !p(x)
    ensures Filter(s, p) == []
  {
    if s != [] {
      FilterKeepsNone(s[1..], p);
    }
  }

  /** `s.reduce((acc, x) => acc + f(x), 0)`, folded from the left. */
  function Sum<T>(s: seq<T>, f: T -> int): int {
    if s == [] then 0 else Sum(s[..|s| - 1], f) + f(s[|s| - 1])
  }

  lemma {:induction false} SumAppend<T>(a: seq<T>, b: seq<T>, f: T -> int)
    ensures Sum(a + b, f) == Sum(a, f) + Sum(b, f)
    decreases |b|
  {
    if b == [] {
      assert a + b == a;
    } else {
      var c := a + b;
      assert c[..|c| - 1] == a + b[..|b| - 1];
      SumAppend(a, b[..|b| - 1], f);
    }
  }

  lemma SumCons<T>(x: T, s: seq<T>, f: T -> int)
    ensures Sum([x] + s, f) == f(x) + Sum(s, f)
  {
    SumAppend([x], s, f);
    assert [x][..0] == [];
  }

  /** Taking one more element of `b` after `a` appends that element. */
  lemma PrefixStep<T>(a: seq<T>, b: seq<T>, k: nat)
    requires k < |b|
    ensures a + b[..k + 1] == (a + b[..k]) + [b[k]]
  {
    assert b[..k + 1] == b[..k] + [b[k]];
  }

  /** A concatenation splits back into its two parts. */
  lemma SplitAppend<T>(a: seq<T>, b: seq<T>)
    ensures (a + b)[..|a|] == a && (a + b)[|a|..] == b
  {
  }
}
