/** A `Record<string, number>` built by counting, kept as its entries in insertion order, and
    the descending sort the dashboard applies to those entries. */
module Tally {
  import opened Seqs

  type Entry = (string, int)

  function KeysOf(t: seq<Entry>): (ks: seq<string>)
    ensures |ks| == |t|
    ensures forall i :: 0 <= i < |t| ==> ks[i] == t[i].0
  {
    seq(|t|, i requires 0 <= i < |t| => t[i].0)
  }

  /** No key is recorded twice, as in an object. */
  predicate DistinctKeys(t: seq<Entry>) {
    forall i, j :: 0 <= i < j < |t| ==> t[i].0 != t[j].0
  }

  /** `record[key] || 0`. */
  function Lookup(t: seq<Entry>, key: string): int {
    if t == [] then 0 else if t[0].0 == key then t[0].1 else Lookup(t[1..], key)
  }

  /** The sum of every recorded count. */
  function Total(t: seq<Entry>): int {
    if t == [] then 0 else t[0].1 + Total(t[1..])
  }

  lemma {:induction false} LookupAbsent(t: seq<Entry>, key: string)
    requires key !in KeysOf(t)
    ensures Lookup(t, key) == 0
  {
    if t != [] {
      assert t[0].0 == KeysOf(t)[0];
      assert KeysOf(t[1..]) == KeysOf(t)[1..];
      LookupAbsent(t[1..], key);
    }
  }

  /** `record[key] = (record[key] || 0) + amount`. */
  function Bump(t: seq<Entry>, key: string, amount: int): seq<Entry> {
    if t == [] then [(key, amount)]
    else if t[0].0 == key then [(key, t[0].1 + amount)] + t[1..]
    else [t[0]] + Bump(t[1..], key, amount)
  }

  /** An existing entry grows in place and a new key is appended; every other key keeps its
      count, and the total grows by the amount. */
  lemma {:induction false} BumpFacts(t: seq<Entry>, key: string, amount: int)
    ensures KeysOf(Bump(t, key, amount)) == if key in KeysOf(t) then KeysOf(t) else KeysOf(t) + [key]
    ensures Lookup(Bump(t, key, amount), key) == Lookup(t, key) + amount
    ensures forall other :: other != key ==> Lookup(Bump(t, key, amount), other) == Lookup(t, other)
    ensures Total(Bump(t, key, amount)) == Total(t) + amount
  {
    if t == [] {
      assert KeysOf(Bump(t, key, amount)) == [key];
    } else if t[0].0 == key {
      var r := Bump(t, key, amount);
      assert KeysOf(r) == KeysOf(t);
      assert r[1..] == t[1..];
    } else {
      BumpFacts(t[1..], key, amount);
      BumpBehind(t, key, amount, Bump(t[1..], key, amount));
    }
  }

  /** Bumping behind a first entry with another key: the first entry stays in front. */
  lemma BumpBehind(t: seq<Entry>, key: string, amount: int, rest: seq<Entry>)
    requires t != [] && t[0].0 != key
    requires KeysOf(rest) == if key in KeysOf(t[1..]) then KeysOf(t[1..]) else KeysOf(t[1..]) + [key]
    requires Lookup(rest, key) == Lookup(t[1..], key) + amount
    requires forall other :: other != key ==> Lookup(rest, other) == Lookup(t[1..], other)
    requires Total(rest) == Total(t[1..]) + amount
    ensures var r := [t[0]] + rest;
      && KeysOf(r) == (if key in KeysOf(t) then KeysOf(t) else KeysOf(t) + [key])
      && Lookup(r, key) == Lookup(t, key) + amount
      && (forall other :: other != key ==> Lookup(r, other) == Lookup(t, other))
      && Total(r) == Total(t) + amount
  {
    var r := [t[0]] + rest;
    assert r[1..] == rest;
    assert KeysOf(t[1..]) == KeysOf(t)[1..];
    assert KeysOf(r) == [t[0].0] + KeysOf(rest);
    assert KeysOf(t) == [t[0].0] + KeysOf(t[1..]);
    assert key in KeysOf(t) <==> key in KeysOf(t[1..]);
  }

  /** Bumping keeps the keys of a record distinct. */
  lemma BumpKeepsDistinct(t: seq<Entry>, key: string, amount: int)
    requires DistinctKeys(t)
    ensures DistinctKeys(Bump(t, key, amount))
  {
    var r := Bump(t, key, amount);
    BumpFacts(t, key, amount);
    var ks, kr := KeysOf(t), KeysOf(r);
    forall i, j | 0 <= i < j < |r|
      ensures r[i].0 != r[j].0
    {
      assert r[i].0 == kr[i] && r[j].0 == kr[j];
      if j < |t| {
        assert kr[i] == ks[i] && kr[j] == ks[j];
      } else {
        assert kr[j] == key && kr[i] == ks[i] && key !in ks;
      }
    }
  }

  /** Entries ordered by count, largest first. */
  predicate NonIncreasing(s: seq<Entry>) {
    forall i, j :: 0 <= i < j < |s| ==> s[i].1 >= s[j].1
  }

  /** Places `x` after every entry whose count is at least its own, so that among equal counts
      the earlier entry stays first. */
  function InsertDesc(s: seq<Entry>, x: Entry): (r: seq<Entry>)
    ensures multiset(r) == multiset(s) + multiset{x}
    ensures |r| == |s| + 1
    ensures r[0] == x || (s != [] && r[0] == s[0])
  {
    if s == [] then [x]
    else if s[0].1 >= x.1 then
      assert s == [s[0]] + s[1..];
      [s[0]] + InsertDesc(s[1..], x)
    else
      [x] + s
  }

  lemma {:induction false} InsertDescSorted(s: seq<Entry>, x: Entry)
    requires NonIncreasing(s)
    ensures NonIncreasing(InsertDesc(s, x))
  {
    if s != [] && s[0].1 >= x.1 {
      var rest := InsertDesc(s[1..], x);
      InsertDescSorted(s[1..], x);
      assert s[0].1 >= rest[0].1 by {
        if rest[0] != x {
          assert rest[0] == s[1];
        }
      }
      assert InsertDesc(s, x) == [s[0]] + rest;
    }
  }

  /** `entries.sort((a, b) => b[1] - a[1])`: insertion from the left keeps equal counts in
      their original order. */
  function SortDesc(t: seq<Entry>): (r: seq<Entry>)
    ensures multiset(r) == multiset(t)
    ensures |r| == |t|
    ensures NonIncreasing(r)
  {
    if t == [] then []
    else
      assert t == t[..|t| - 1] + [t[|t| - 1]];
      var init := SortDesc(t[..|t| - 1]);
      InsertDescSorted(init, t[|t| - 1]);
      InsertDesc(init, t[|t| - 1])
  }

  /** `.slice(0, 5)` of the sorted entries. */
  function TopFive(t: seq<Entry>): (r: seq<Entry>)
    ensures |r| == if |t| < 5 then |t| else 5
    ensures NonIncreasing(r)
    ensures multiset(r) <= multiset(t)
    ensures forall e, x :: e in t && e !in r && x in r ==> e.1 <= x.1
  {
    var sorted := SortDesc(t);
    var k := if |sorted| < 5 then |sorted| else 5;
    TopFiveSplit(t, sorted, k);
    sorted[..k]
  }

  lemma TopFiveSplit(t: seq<Entry>, sorted: seq<Entry>, k: nat)
    requires NonIncreasing(sorted) && multiset(sorted) == multiset(t) && k <= |sorted|
    ensures NonIncreasing(sorted[..k])
    ensures multiset(sorted[..k]) <= multiset(t)
    ensures forall e, x :: e in t && e !in sorted[..k] && x in sorted[..k] ==> e.1 <= x.1
  {
    assert forall e :: e in t <==> e in multiset(sorted);
    assert sorted == sorted[..k] + sorted[k..];
    forall e, x | e in sorted && e !in sorted[..k] && x in sorted[..k]
      ensures e.1 <= x.1
    {
      var j :| 0 <= j < |sorted| && sorted[j] == e;
      var i :| 0 <= i < k && sorted[..k][i] == x;
      assert j >= k;
    }
  }
}
