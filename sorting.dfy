/** The bucket order of `sortBuckets` (`discord/cogs/recruit.py`): the
    indices of a key sequence sorted by key, largest first, with Python's
    stable `list.sort(reverse=True)` keeping equal keys in index order. */
module Sorting {

  /** Index `a` goes before index `b`: a larger key, or an equal key and a
      smaller index. This is a strict total order on distinct indices. */
  predicate Before(keys: seq<real>, a: nat, b: nat)
    requires a < |keys| && b < |keys|
  {
    keys[a] > keys[b] || (keys[a] == keys[b] && a < b)
  }

  predicate InRange(keys: seq<real>, s: seq<nat>) {
    forall k :: 0 <= k < |s| ==> s[k] < |keys|
  }

  /** Every earlier position holds an index that goes before every later
      one. */
  predicate Ordered(keys: seq<real>, s: seq<nat>)
    requires InRange(keys, s)
  {
    forall i, j :: 0 <= i < j < |s| ==> Before(keys, s[i], s[j])
  }

  /** The indices `0 .. n-1`. */
  function Indices(n: nat): (r: seq<nat>)
    ensures |r| == n && forall k :: 0 <= k < n ==> r[k] == k
  {
    if n == 0 then [] else Indices(n - 1) + [n - 1]
  }

  /** Inserts index `i` after every index whose key is at least its key. */
  function Insert(keys: seq<real>, s: seq<nat>, i: nat): (r: seq<nat>)
    requires i < |keys| && InRange(keys, s)
  {
    if s == [] then [i]
    else if keys[s[0]] >= keys[i] then
      [s[0]] + Insert(keys, s[1..], i)
    else
      [i] + s
  }

  /** Inserting adds `i` and keeps every index already there. */
  lemma {:induction false} InsertMultiset(keys: seq<real>, s: seq<nat>, i: nat)
    requires i < |keys| && InRange(keys, s)
    ensures multiset(Insert(keys, s, i)) == multiset(s) + multiset{i}
  {
    if s != [] && keys[s[0]] >= keys[i] {
      InsertMultiset(keys, s[1..], i);
      assert s == [s[0]] + s[1..];
    }
  }

  /** The inserted sequence holds `i` and the indices already there. */
  lemma InsertMembers(keys: seq<real>, s: seq<nat>, i: nat)
    requires i < |keys| && InRange(keys, s)
    ensures forall x :: x in Insert(keys, s, i) <==> x == i || x in s
  {
    var r := Insert(keys, s, i);
    InsertMultiset(keys, s, i);
    forall x
      ensures x in r <==> x == i || x in s
    {
      assert x in r <==> x in multiset(r);
      assert x in s <==> x in multiset(s);
    }
  }

  /** Inserting `i` into indices below `i` gives indices up to `i`. */
  lemma InsertBelow(keys: seq<real>, s: seq<nat>, i: nat)
    requires i < |keys| && InRange(keys, s)
    requires forall k :: 0 <= k < |s| ==> s[k] < i
    ensures forall k :: 0 <= k < |Insert(keys, s, i)| ==> Insert(keys, s, i)[k] <= i
  {
    var r := Insert(keys, s, i);
    InsertMembers(keys, s, i);
    forall k | 0 <= k < |r|
      ensures r[k] <= i
    {
      assert r[k] in r;
      if r[k] != i {
        assert r[k] in s;
        var j :| 0 <= j < |s| && s[j] == r[k];
      }
    }
  }

  /** An index that goes before every element of an ordered sequence can be
      put in front of it. */
  lemma OrderedCons(keys: seq<real>, x: nat, s: seq<nat>)
    requires x < |keys| && InRange(keys, s) && Ordered(keys, s)
    requires forall k :: 0 <= k < |s| ==> Before(keys, x, s[k])
    ensures InRange(keys, [x] + s) && Ordered(keys, [x] + s)
  {
    var r := [x] + s;
    forall i, j | 0 <= i < j < |r|
      ensures Before(keys, r[i], r[j])
    {
      assert r[j] == s[j - 1];
      if i > 0 {
        assert r[i] == s[i - 1];
      }
    }
  }

  /** Inserting an index larger than all present keeps the order. */
  lemma {:induction false} InsertOrdered(keys: seq<real>, s: seq<nat>, i: nat)
    requires i < |keys| && InRange(keys, s)
    requires Ordered(keys, s)
    requires forall k :: 0 <= k < |s| ==> s[k] < i
    ensures InRange(keys, Insert(keys, s, i)) && Ordered(keys, Insert(keys, s, i))
  {
    if s != [] && keys[s[0]] >= keys[i] {
      var tail := s[1..];
      assert forall k :: 0 <= k < |tail| ==> tail[k] == s[k + 1];
      var rest := Insert(keys, tail, i);
      InsertOrdered(keys, tail, i);
      InsertMembers(keys, tail, i);
      forall k | 0 <= k < |rest|
        ensures Before(keys, s[0], rest[k])
      {
        if rest[k] != i {
          assert rest[k] in rest;
          assert rest[k] in tail;
          var j :| 0 <= j < |tail| && tail[j] == rest[k];
          assert s[j + 1] == rest[k];
        }
      }
      OrderedCons(keys, s[0], rest);
    } else if s != [] {
      forall k | 0 <= k < |s|
        ensures Before(keys, i, s[k])
      {
        if k > 0 {
          assert Before(keys, s[0], s[k]);
        }
      }
      OrderedCons(keys, i, s);
    }
  }

  /** `sortBuckets`: the first `n` indices in key order. */
  function SortDesc(keys: seq<real>, n: nat): (r: seq<nat>)
    requires n <= |keys|
    ensures InRange(keys, r) && Ordered(keys, r)
    ensures forall k :: 0 <= k < |r| ==> r[k] < n
  {
    if n == 0 then []
    else
      var s := SortDesc(keys, n - 1);
      SortStep(keys, s, n);
      Insert(keys, s, n - 1)
  }

  /** One step of `SortDesc`: inserting index `n-1` into the ordered
      indices below it keeps them ordered. */
  lemma SortStep(keys: seq<real>, s: seq<nat>, n: nat)
    requires 0 < n <= |keys| && InRange(keys, s) && Ordered(keys, s)
    requires forall k :: 0 <= k < |s| ==> s[k] < n - 1
    ensures var r := Insert(keys, s, n - 1);
      InRange(keys, r) && Ordered(keys, r) && forall k :: 0 <= k < |r| ==> r[k] < n
  {
    var last: nat := n - 1;
    var r := Insert(keys, s, last);
    InsertOrdered(keys, s, last);
    assert InRange(keys, r) && Ordered(keys, r);
    InsertBelow(keys, s, last);
  }

  /** The first `n` indices in key order are a permutation of them. */
  lemma {:induction false} SortDescPermutation(keys: seq<real>, n: nat)
    requires n <= |keys|
    ensures multiset(SortDesc(keys, n)) == multiset(Indices(n))
  {
    if n > 0 {
      var last: nat := n - 1;
      var s := SortDesc(keys, last);
      SortDescPermutation(keys, last);
      InsertMultiset(keys, s, last);
      IndicesSnoc(n);
      calc {
        multiset(SortDesc(keys, n));
        multiset(Insert(keys, s, last));
        multiset(s) + multiset{last};
        multiset(Indices(last)) + multiset{last};
        multiset(Indices(last) + [last]);
      }
    }
  }

  lemma IndicesSnoc(n: nat)
    requires 0 < n
    ensures Indices(n) == Indices(n - 1) + [n - 1]
  {
  }

  /** The result is a permutation of all indices, largest key first, and
      equal keys keep index order. */
  lemma {:induction false} SortDescSpec(keys: seq<real>)
    ensures var r := SortDesc(keys, |keys|);
      |r| == |keys| &&
      (forall x: nat :: x in r <==> x < |keys|) &&
      (forall i, j :: 0 <= i < j < |r| ==> keys[r[i]] >= keys[r[j]]) &&
      (forall i, j :: 0 <= i < j < |r| && keys[r[i]] == keys[r[j]] ==> r[i] < r[j])
  {
    var r := SortDesc(keys, |keys|);
    SortDescPermutation(keys, |keys|);
    PermutationOfIndices(r, |keys|);
    assert forall i, j :: 0 <= i < j < |r| ==> Before(keys, r[i], r[j]);
  }

  /** A permutation of the indices `0 .. n-1` holds each of them once. */
  lemma PermutationOfIndices(r: seq<nat>, n: nat)
    requires multiset(r) == multiset(Indices(n))
    ensures |r| == n && forall x: nat :: x in r <==> x < n
  {
    assert |multiset(r)| == |multiset(Indices(n))|;
    forall x: nat
      ensures x in r <==> x < n
    {
      assert x in r <==> x in multiset(r);
      assert x in Indices(n) <==> x in multiset(Indices(n));
      if x < n {
        assert Indices(n)[x] == x;
      }
    }
  }

  /** Two ordered sequences with the same elements start alike. */
  lemma OrderedHead(keys: seq<real>, a: seq<nat>, b: seq<nat>)
    requires InRange(keys, a) && InRange(keys, b)
    requires Ordered(keys, a) && Ordered(keys, b)
    requires multiset(a) == multiset(b) && a != []
    ensures b != [] && a[0] == b[0]
  {
    assert a[0] in multiset(b);
    assert b != [];
    assert b[0] in multiset(a);
  }

  lemma TailMultiset(a: seq<nat>, b: seq<nat>)
    requires multiset(a) == multiset(b) && a != [] && b != [] && a[0] == b[0]
    ensures multiset(a[1..]) == multiset(b[1..])
  {
    assert a == [a[0]] + a[1..] && b == [b[0]] + b[1..];
    assert multiset(a[1..]) == multiset(a) - multiset{a[0]};
    assert multiset(b[1..]) == multiset(b) - multiset{b[0]};
  }

  /** Two orderings of the same indices that are both ordered agree: the
      order `sortBuckets` produces is the only one with these properties. */
  lemma {:induction false} OrderedUnique(keys: seq<real>, a: seq<nat>, b: seq<nat>)
    requires InRange(keys, a) && InRange(keys, b)
    requires Ordered(keys, a) && Ordered(keys, b)
    requires multiset(a) == multiset(b)
    ensures a == b
    decreases |a|
  {
    if a == [] {
      assert |multiset(b)| == 0;
    } else {
      OrderedHead(keys, a, b);
      TailMultiset(a, b);
      OrderedUnique(keys, a[1..], b[1..]);
      assert a == [a[0]] + a[1..] && b == [b[0]] + b[1..];
    }
  }
}
