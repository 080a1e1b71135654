// The stable descending sort the core applies as `sorted(items, key=...,
// reverse=True)`, taken on the positions of the items: positions of higher
// keys first, positions of equal keys in their original order. `[:count]`
// on the result is Python's slice, which counts from the end for a negative
// count.

module Ordering {

  /** The positions 0..n-1 in order. */
  function Range(n: nat): (r: seq<nat>)
    ensures |r| == n && forall i :: 0 <= i < n ==> r[i] == i
  {
    seq(n, i requires 0 <= i => i)
  }

  predicate InBounds(keys: seq<real>, s: seq<nat>)
  {
    forall i :: 0 <= i < |s| ==> s[i] < |keys|
  }

  /** Keys do not increase along `s`. */
  predicate Descending(keys: seq<real>, s: seq<nat>)
    requires InBounds(keys, s)
  {
    forall i, j :: 0 <= i < j < |s| ==> keys[s[i]] >= keys[s[j]]
  }

  /** Positions of equal keys appear in increasing order. */
  predicate Stable(keys: seq<real>, s: seq<nat>)
    requires InBounds(keys, s)
  {
    forall i, j :: 0 <= i < j < |s| && keys[s[i]] == keys[s[j]] ==> s[i] < s[j]
  }

  /** Inserts position `p` after every entry whose key is at least p's. */
  function Insert(keys: seq<real>, p: nat, s: seq<nat>): (r: seq<nat>)
    requires p < |keys| && InBounds(keys, s)
    ensures |r| == |s| + 1
    ensures InBounds(keys, r)
  {
    if s == [] then [p]
    else if keys[s[0]] >= keys[p] then [s[0]] + Insert(keys, p, s[1..])
    else [p] + s
  }

  /** An insertion adds exactly the new position. */
  lemma {:induction false} InsertMultiset(keys: seq<real>, p: nat, s: seq<nat>)
    requires p < |keys| && InBounds(keys, s)
    ensures multiset(Insert(keys, p, s)) == multiset(s) + multiset{p}
    decreases |s|
  {
    if s != [] {
      assert s == [s[0]] + s[1..];
      if keys[s[0]] >= keys[p] {
        InsertMultiset(keys, p, s[1..]);
      }
    }
  }

  /** The entries after an insertion are the old ones and the new one. */
  lemma InsertMembers(keys: seq<real>, p: nat, s: seq<nat>, x: nat)
    requires p < |keys| && InBounds(keys, s)
    ensures x in Insert(keys, p, s) <==> x in s || x == p
  {
    InsertMultiset(keys, p, s);
    assert x in Insert(keys, p, s) <==> x in multiset(Insert(keys, p, s));
    assert x in s <==> x in multiset(s);
  }

  /** An entry whose key dominates those of a descending, stable sequence
      (and that precedes the entries of equal key) can go in front. */
  lemma ConsKeepsOrder(keys: seq<real>, x: nat, t: seq<nat>)
    requires x < |keys| && InBounds(keys, t) && Descending(keys, t) && Stable(keys, t)
    requires forall j :: 0 <= j < |t| ==> keys[x] >= keys[t[j]]
    requires forall j :: 0 <= j < |t| && keys[x] == keys[t[j]] ==> x < t[j]
    ensures InBounds(keys, [x] + t) && Descending(keys, [x] + t) && Stable(keys, [x] + t)
  {
    var r := [x] + t;
    forall i, j | 0 <= i < j < |r|
      ensures keys[r[i]] >= keys[r[j]]
      ensures keys[r[i]] == keys[r[j]] ==> r[i] < r[j]
    {
      assert r[j] == t[j - 1];
      if i > 0 {
        assert r[i] == t[i - 1];
      }
    }
  }

  /** Inserting a position larger than all present keeps the order
      descending and stable. */
  lemma {:induction false} InsertKeepsOrder(keys: seq<real>, p: nat, s: seq<nat>)
    requires p < |keys| && InBounds(keys, s)
    requires Descending(keys, s) && Stable(keys, s)
    requires forall i :: 0 <= i < |s| ==> s[i] < p
    ensures Descending(keys, Insert(keys, p, s)) && Stable(keys, Insert(keys, p, s))
    decreases |s|
  {
    if s == [] {
    } else if keys[s[0]] >= keys[p] {
      var tail := s[1..];
      SuffixKeepsOrder(keys, s);
      InsertKeepsOrder(keys, p, tail);
      var t := Insert(keys, p, tail);
      forall j | 0 <= j < |t|
        ensures keys[s[0]] >= keys[t[j]]
        ensures keys[s[0]] == keys[t[j]] ==> s[0] < t[j]
      {
        InsertMembers(keys, p, tail, t[j]);
        if t[j] != p {
          var k :| 0 <= k < |tail| && tail[k] == t[j];
          assert s[k + 1] == t[j];
        }
      }
      ConsKeepsOrder(keys, s[0], t);
    } else {
      forall j | 0 <= j < |s|
        ensures keys[p] >= keys[s[j]]
      {
        assert keys[s[0]] >= keys[s[j]];
      }
      ConsKeepsOrder(keys, p, s);
    }
  }

  /** Dropping the first entry keeps the order descending and stable. */
  lemma SuffixKeepsOrder(keys: seq<real>, s: seq<nat>)
    requires |s| > 0 && InBounds(keys, s) && Descending(keys, s) && Stable(keys, s)
    ensures InBounds(keys, s[1..]) && Descending(keys, s[1..]) && Stable(keys, s[1..])
  {
    assert forall i :: 0 <= i < |s| - 1 ==> s[1..][i] == s[i + 1];
  }

  /** The positions 0..n-1 sorted by descending key, stably: insertion of
      each position in turn. */
  function SortDescending(keys: seq<real>, n: nat): (r: seq<nat>)
    requires n <= |keys|
    ensures |r| == n && InBounds(keys, r)
  {
    if n == 0 then [] else Insert(keys, n - 1, SortDescending(keys, n - 1))
  }

  /** The sort holds each position below n exactly once. */
  lemma {:induction false} SortMultiset(keys: seq<real>, n: nat)
    requires n <= |keys|
    ensures multiset(SortDescending(keys, n)) == multiset(Range(n))
  {
    if n > 0 {
      SortMultiset(keys, n - 1);
      InsertMultiset(keys, n - 1, SortDescending(keys, n - 1));
      assert Range(n) == Range(n - 1) + [n - 1];
    }
  }

  /** The sort holds the positions below n. */
  lemma SortMembers(keys: seq<real>, n: nat)
    requires n <= |keys|
    ensures forall p: nat :: p in SortDescending(keys, n) <==> p < n
  {
    var r := SortDescending(keys, n);
    SortMultiset(keys, n);
    forall p: nat
      ensures p in r <==> p < n
    {
      assert p in r <==> p in multiset(r);
      assert p in Range(n) <==> p in multiset(Range(n));
      if p < n {
        assert Range(n)[p] == p;
      }
    }
  }

  /** Every entry of the sort of the first n positions is below n. */
  lemma SortBelow(keys: seq<real>, n: nat)
    requires n <= |keys|
    ensures forall i :: 0 <= i < n ==> SortDescending(keys, n)[i] < n
  {
    var s := SortDescending(keys, n);
    SortMembers(keys, n);
    forall i | 0 <= i < n
      ensures s[i] < n
    {
      assert s[i] in s;
    }
  }

  /** The sort is a permutation of the positions, descending in key and
      stable among equal keys. */
  lemma {:induction false} SortDescendingIsStableSort(keys: seq<real>, n: nat)
    requires n <= |keys|
    ensures Descending(keys, SortDescending(keys, n)) && Stable(keys, SortDescending(keys, n))
  {
    if n > 0 {
      var s := SortDescending(keys, n - 1);
      var r := Insert(keys, n - 1, s);
      assert Descending(keys, r) && Stable(keys, r) by {
        SortBelow(keys, n - 1);
        SortDescendingIsStableSort(keys, n - 1);
        InsertKeepsOrder(keys, n - 1, s);
      }
      assert SortDescending(keys, n) == r;
    }
  }

  /** The entries of `ts` at the given positions. */
  function At<T>(ts: seq<T>, positions: seq<nat>): (r: seq<T>)
    requires forall i :: 0 <= i < |positions| ==> positions[i] < |ts|
    ensures |r| == |positions| && forall i :: 0 <= i < |r| ==> r[i] == ts[positions[i]]
  {
    seq(|positions|, i requires 0 <= i < |positions| => ts[positions[i]])
  }

  /** `sorted(range(len(keys)), key=keys, reverse=True)`. */
  function Sorted(keys: seq<real>): seq<nat>
  {
    SortDescending(keys, |keys|)
  }

  /** Python's `s[:count]`. */
  function SliceTo<T>(s: seq<T>, count: int): (r: seq<T>)
    ensures count >= 0 ==> |r| == if count < |s| then count else |s|
    ensures count < 0 ==> |r| == if -count < |s| then |s| + count else 0
    ensures r == s[..|r|]
  {
    if count >= 0 then s[..if count < |s| then count else |s|]
    else s[..if -count < |s| then |s| + count else 0]
  }

  /** The positions of the `count` highest keys, best first. */
  function Top(keys: seq<real>, count: int): seq<nat>
  {
    SliceTo(Sorted(keys), count)
  }

  /** A prefix of a descending, stable sequence is descending and stable. */
  lemma PrefixKeepsOrder(keys: seq<real>, s: seq<nat>, k: nat)
    requires k <= |s| && InBounds(keys, s) && Descending(keys, s) && Stable(keys, s)
    ensures InBounds(keys, s[..k]) && Descending(keys, s[..k]) && Stable(keys, s[..k])
  {
    assert forall i :: 0 <= i < k ==> s[..k][i] == s[i];
  }

  /** The top entries are positions of the input, best first, and none of
      the positions left out has a higher key than any taken; a count of at
      least the length takes every position once. */
  lemma TopIsBest(keys: seq<real>, count: int)
    ensures var t := Top(keys, count);
            InBounds(keys, t) && Descending(keys, t) && Stable(keys, t)
    ensures var t := Top(keys, count);
            forall i, p :: 0 <= i < |t| && 0 <= p < |keys| && p !in t ==> keys[t[i]] >= keys[p]
    ensures count >= |keys| ==> multiset(Top(keys, count)) == multiset(Range(|keys|))
  {
    var s := Sorted(keys);
    var t := Top(keys, count);
    assert t == s[..|t|];
    SortDescendingIsStableSort(keys, |keys|);
    PrefixKeepsOrder(keys, s, |t|);
    forall i, p | 0 <= i < |t| && 0 <= p < |keys| && p !in t
      ensures keys[t[i]] >= keys[p]
    {
      TakenBeatsRest(keys, s, |t|, i, p);
    }
    if count >= |keys| {
      assert t == s;
      SortMultiset(keys, |keys|);
    }
  }

  /** In the sort, an entry of a prefix has a key at least that of any
      position not in the prefix. */
  lemma TakenBeatsRest(keys: seq<real>, s: seq<nat>, k: nat, i: nat, p: nat)
    requires s == Sorted(keys) && i < k <= |s| && p < |keys| && p !in s[..k]
    ensures keys[s[i]] >= keys[p]
  {
    SortMembers(keys, |keys|);
    SortDescendingIsStableSort(keys, |keys|);
    assert p in s;
    var j :| 0 <= j < |s| && s[j] == p;
  }
}
