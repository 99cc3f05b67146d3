/**
  The pool ordering of a day: a stable sort by ascending swipe count, done
  in place on the pool array. `SortedBySwipes` is the reference definition
  (insertion from the back); its lemmas say it is an ordered, stable
  permutation of its input, and `SortPoolBySwipes` is proved to compute it.
 */
module Sorting {
  import opened Users

  /** `s` with `x` placed after every trailing member whose key exceeds x's. */
  function Insert<T>(s: seq<T>, x: T, key: T -> int): seq<T>
  {
    if s == [] then [x]
    else if key(s[|s| - 1]) <= key(x) then s + [x]
    else Insert(s[..|s| - 1], x, key) + [s[|s| - 1]]
  }

  /** Stable ascending sort of `s` by `key`. */
  function SortedBy<T>(s: seq<T>, key: T -> int): seq<T>
  {
    if s == [] then [] else Insert(SortedBy(s[..|s| - 1], key), s[|s| - 1], key)
  }

  predicate Ascending<T>(s: seq<T>, key: T -> int)
  {
    forall i, j :: 0 <= i < j < |s| ==> key(s[i]) <= key(s[j])
  }

  /** The members of `s` whose key is `v`, in their order in `s`. */
  function WithKey<T>(s: seq<T>, key: T -> int, v: int): seq<T>
  {
    if s == [] then []
    else WithKey(s[..|s| - 1], key, v) + (if key(s[|s| - 1]) == v then [s[|s| - 1]] else [])
  }

  lemma {:induction false} InsertPermutes<T>(s: seq<T>, x: T, key: T -> int)
    ensures multiset(Insert(s, x, key)) == multiset(s) + multiset{x}
  {
    if s != [] && key(s[|s| - 1]) > key(x) {
      var init := s[..|s| - 1];
      InsertPermutes(init, x, key);
      assert s == init + [s[|s| - 1]];
    }
  }

  /** The sort rearranges its input: same members, same multiplicities. */
  lemma {:induction false} SortedPermutes<T>(s: seq<T>, key: T -> int)
    ensures multiset(SortedBy(s, key)) == multiset(s)
  {
    if s != [] {
      var init := s[..|s| - 1];
      SortedPermutes(init, key);
      InsertPermutes(SortedBy(init, key), s[|s| - 1], key);
      assert s == init + [s[|s| - 1]];
    }
  }

  lemma {:induction false} InsertAscending<T>(s: seq<T>, x: T, key: T -> int)
    requires Ascending(s, key)
    ensures Ascending(Insert(s, x, key), key)
  {
    if s != [] && key(s[|s| - 1]) > key(x) {
      var init, last := s[..|s| - 1], s[|s| - 1];
      InsertAscending(init, x, key);
      InsertPermutes(init, x, key);
      var r := Insert(init, x, key);
      forall i | 0 <= i < |r|
        ensures key(r[i]) <= key(last)
      {
        assert r[i] in multiset(init) + multiset{x};
        if r[i] in init {
          var k :| 0 <= k < |init| && init[k] == r[i];
          assert s[k] == init[k];
        }
      }
      assert Insert(s, x, key) == r + [last];
    }
  }

  lemma {:induction false} InsertStable<T>(s: seq<T>, x: T, key: T -> int, v: int)
    requires Ascending(s, key)
    ensures WithKey(Insert(s, x, key), key, v) == WithKey(s, key, v) + (if key(x) == v then [x] else [])
  {
    if s == [] {
      assert WithKey([x], key, v) == WithKey([], key, v) + (if key(x) == v then [x] else []);
    } else if key(s[|s| - 1]) <= key(x) {
      assert (s + [x])[..|s|] == s;
    } else {
      var init, last := s[..|s| - 1], s[|s| - 1];
      InsertStable(init, x, key, v);
      var r := Insert(init, x, key);
      assert (r + [last])[..|r|] == r;
      assert WithKey(s, key, v) == WithKey(init, key, v) + (if key(last) == v then [last] else []);
    }
  }

  /** The sort orders its result by non-decreasing key. */
  lemma {:induction false} SortedIsAscending<T>(s: seq<T>, key: T -> int)
    ensures Ascending(SortedBy(s, key), key)
  {
    if s != [] {
      SortedIsAscending(s[..|s| - 1], key);
      InsertAscending(SortedBy(s[..|s| - 1], key), s[|s| - 1], key);
    }
  }

  /** Stability: members with equal keys keep their relative order. */
  lemma {:induction false} SortedIsStable<T>(s: seq<T>, key: T -> int, v: int)
    ensures WithKey(SortedBy(s, key), key, v) == WithKey(s, key, v)
  {
    if s != [] {
      var init := s[..|s| - 1];
      SortedIsStable(init, key, v);
      SortedIsAscending(init, key);
      InsertStable(SortedBy(init, key), s[|s| - 1], key, v);
    }
  }

  /** Inserting `x` puts it at the first position after which every member has a larger key. */
  lemma {:induction false} InsertAt<T>(s: seq<T>, x: T, key: T -> int, j: nat)
    requires j <= |s|
    requires j == 0 || key(s[j - 1]) <= key(x)
    requires forall k :: j <= k < |s| ==> key(s[k]) > key(x)
    ensures Insert(s, x, key) == s[..j] + [x] + s[j..]
    decreases |s|, 1
  {
    if s == [] {
    } else if key(s[|s| - 1]) <= key(x) {
      assert j == |s|;
    } else {
      var init, last := s[..|s| - 1], s[|s| - 1];
      assert j < |s|;
      assert Insert(s, x, key) == Insert(init, x, key) + [last];
      InsertAtInit(s, x, key, j);
      calc {
        Insert(init, x, key) + [last];
        (init[..j] + [x] + init[j..]) + [last];
        { assert init[..j] == s[..j]; assert init[j..] + [last] == s[j..]; }
        s[..j] + [x] + s[j..];
      }
    }
  }

  /** The induction step of InsertAt: the claim for `s` without its last member. */
  lemma {:induction false} InsertAtInit<T>(s: seq<T>, x: T, key: T -> int, j: nat)
    requires j < |s|
    requires j == 0 || key(s[j - 1]) <= key(x)
    requires forall k :: j <= k < |s| ==> key(s[k]) > key(x)
    ensures Insert(s[..|s| - 1], x, key) == s[..|s| - 1][..j] + [x] + s[..|s| - 1][j..]
    decreases |s|, 0
  {
    var init := s[..|s| - 1];
    assert forall k :: j <= k < |init| ==> init[k] == s[k];
    assert j == 0 || init[j - 1] == s[j - 1];
    InsertAt(init, x, key, j);
  }

  /** The swipe count of every member of `s`, frozen as a key function. */
  ghost function SwipeKey(s: seq<User>): (key: User -> int)
    reads s
    ensures forall u :: u in s ==> key(u) == u.swipes
  {
    var m := map u | u in s :: u.swipes;
    (u: User) => if u in m then m[u] else 0
  }

  /** `key` gives the current swipe count of every member of `s`. */
  ghost predicate KeyIsSwipes(s: seq<User>, key: User -> int)
    reads s
  {
    forall u :: u in s ==> key(u) == u.swipes
  }

  lemma KeyIsSwipesPermuted(s: seq<User>, t: seq<User>, key: User -> int)
    requires multiset(s) == multiset(t) && KeyIsSwipes(t, key)
    ensures KeyIsSwipes(s, key)
  {
    forall u | u in s
      ensures key(u) == u.swipes
    {
      assert u in multiset(t);
    }
  }

  /** Moves `a[i]` left past the members of the sorted prefix `a[..i]` that have more swipes. */
  method InsertInPlace(a: array<User>, i: nat, ghost key: User -> int)
    requires i < a.Length
    requires KeyIsSwipes(a[..], key)
    modifies a
    ensures a[..i + 1] == Insert(old(a[..i]), old(a[i]), key)
    ensures a[i + 1..] == old(a[i + 1..])
  {
    ghost var prefix := a[..i];
    var x := a[i];
    assert key(x) == x.swipes by { assert x in a[..]; }
    var j := i;
    while j > 0 && a[j - 1].swipes > x.swipes
      invariant 0 <= j <= i
      invariant a[..j] == prefix[..j]
      invariant a[j + 1..i + 1] == prefix[j..]
      invariant forall k :: j <= k < i ==> key(prefix[k]) > key(x)
      invariant a[i + 1..] == old(a[i + 1..])
    {
      assert a[j - 1] == old(a[j - 1]) && old(a[j - 1]) in old(a[..]);
      a[j] := a[j - 1];
      j := j - 1;
    }
    assert j > 0 ==> a[j - 1] == old(a[j - 1]) && old(a[j - 1]) in old(a[..]);
    a[j] := x;
    InsertAt(prefix, x, key, j);
    assert a[..i + 1] == prefix[..j] + [x] + prefix[j..];
  }

  /** One insertion step of the in-place sort extends the sorted prefix by one member and rearranges the array. */
  lemma SortStep<T>(orig: seq<T>, before: seq<T>, after: seq<T>, i: nat, key: T -> int)
    requires i < |orig| == |before| == |after|
    requires before[..i] == SortedBy(orig[..i], key) && before[i..] == orig[i..]
    requires after[..i + 1] == Insert(before[..i], before[i], key)
    requires after[i + 1..] == before[i + 1..]
    ensures after[..i + 1] == SortedBy(orig[..i + 1], key) && after[i + 1..] == orig[i + 1..]
    ensures multiset(after) == multiset(before)
  {
    assert orig[..i + 1][..i] == orig[..i];
    assert before[i] == orig[i];
    InsertPermutes(before[..i], before[i], key);
    assert after == after[..i + 1] + after[i + 1..];
    assert before == before[..i] + [before[i]] + before[i + 1..];
  }

  /** Sorts the pool in place, stably, by ascending swipe count (the source's `sort` with comparator `a.swipes - b.swipes`). */
  method SortPoolBySwipes(a: array<User>)
    modifies a
    ensures a[..] == SortedBy(old(a[..]), old(SwipeKey(a[..])))
  {
    ghost var orig := a[..];
    ghost var key := SwipeKey(orig);
    for i := 0 to a.Length
      invariant a[..i] == SortedBy(orig[..i], key)
      invariant a[i..] == orig[i..]
      invariant multiset(a[..]) == multiset(orig)
      invariant KeyIsSwipes(orig, key)
    {
      KeyIsSwipesPermuted(a[..], orig, key);
      ghost var before := a[..];
      InsertInPlace(a, i, key);
      SortStep(orig, before, a[..], i, key);
    }
    assert orig[..a.Length] == orig;
  }
}
