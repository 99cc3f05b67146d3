/**
  Per-population totals of likes and matches: the fold of the source's
  `stats`, without the final division by the population size.
 */
module Statistics {
  import opened Users

  datatype Totals = Totals(likes: int, matches: int)

  /** Left-to-right sum, as a `reduce` accumulates it. */
  function Sum(xs: seq<int>): int
  {
    if xs == [] then 0 else Sum(xs[..|xs| - 1]) + xs[|xs| - 1]
  }

  function LikesOf(users: seq<User>): seq<int>
    reads users
  {
    if users == [] then [] else LikesOf(users[..|users| - 1]) + [users[|users| - 1].likes]
  }

  function MatchesOf(users: seq<User>): seq<int>
    reads users
  {
    if users == [] then [] else MatchesOf(users[..|users| - 1]) + [users[|users| - 1].matches]
  }

  /** The counters are listed member by member. */
  lemma {:induction false} CountersOf(users: seq<User>)
    ensures |LikesOf(users)| == |users| && forall i :: 0 <= i < |users| ==> LikesOf(users)[i] == users[i].likes
    ensures |MatchesOf(users)| == |users| && forall i :: 0 <= i < |users| ==> MatchesOf(users)[i] == users[i].matches
  {
    if users != [] {
      CountersOf(users[..|users| - 1]);
    }
  }

  /** Total likes received and total matches over a population. */
  function Stats(users: seq<User>): Totals
    reads users
  {
    Totals(Sum(LikesOf(users)), Sum(MatchesOf(users)))
  }

  lemma {:induction false} SumConcat(a: seq<int>, b: seq<int>)
    ensures Sum(a + b) == Sum(a) + Sum(b)
    decreases |b|
  {
    if b == [] {
      assert a + b == a;
    } else {
      var init := b[..|b| - 1];
      assert (a + b)[..|a + b| - 1] == a + init;
      SumConcat(a, init);
    }
  }

  /** Changing one entry changes the sum by the difference. */
  lemma SumUpdate(xs: seq<int>, p: nat, v: int)
    requires p < |xs|
    ensures Sum(xs[p := v]) == Sum(xs) - xs[p] + v
  {
    var ys := xs[p := v];
    assert xs == xs[..p] + [xs[p]] + xs[p + 1..];
    assert ys == xs[..p] + [v] + xs[p + 1..];
    SumConcat(xs[..p] + [xs[p]], xs[p + 1..]);
    SumConcat(xs[..p], [xs[p]]);
    SumConcat(xs[..p] + [v], xs[p + 1..]);
    SumConcat(xs[..p], [v]);
    assert Sum([xs[p]]) == xs[p] by { assert [xs[p]][..0] == []; }
    assert Sum([v]) == v by { assert [v][..0] == []; }
  }

  lemma {:induction false} LikesRemove(t: seq<User>, j: nat)
    requires j < |t|
    ensures Sum(LikesOf(t)) == Sum(LikesOf(t[..j] + t[j + 1..])) + t[j].likes
  {
    var init, last := t[..|t| - 1], t[|t| - 1];
    if j == |t| - 1 {
      assert t[..j] + t[j + 1..] == init;
    } else {
      LikesRemove(init, j);
      var rest := init[..j] + init[j + 1..];
      assert t[..j] + t[j + 1..] == rest + [last];
      assert (rest + [last])[..|rest|] == rest;
    }
  }

  lemma {:induction false} MatchesRemove(t: seq<User>, j: nat)
    requires j < |t|
    ensures Sum(MatchesOf(t)) == Sum(MatchesOf(t[..j] + t[j + 1..])) + t[j].matches
  {
    var init, last := t[..|t| - 1], t[|t| - 1];
    if j == |t| - 1 {
      assert t[..j] + t[j + 1..] == init;
    } else {
      MatchesRemove(init, j);
      var rest := init[..j] + init[j + 1..];
      assert t[..j] + t[j + 1..] == rest + [last];
      assert (rest + [last])[..|rest|] == rest;
    }
  }

  /** Removing the member at `j` removes its counters from the totals. */
  lemma StatsRemove(t: seq<User>, j: nat)
    requires j < |t|
    ensures var r := Stats(t[..j] + t[j + 1..]);
      Stats(t) == Totals(r.likes + t[j].likes, r.matches + t[j].matches)
  {
    LikesRemove(t, j);
    MatchesRemove(t, j);
  }

  lemma MultisetRemove<T>(s: seq<T>, t: seq<T>, j: nat)
    requires multiset(s) == multiset(t) && s != [] && j < |t| && t[j] == s[|s| - 1]
    ensures multiset(s[..|s| - 1]) == multiset(t[..j] + t[j + 1..])
  {
    var x := s[|s| - 1];
    assert s == s[..|s| - 1] + [x];
    assert t == t[..j] + [x] + t[j + 1..];
    assert multiset(s[..|s| - 1]) == multiset(s) - multiset{x};
    assert multiset(t[..j] + t[j + 1..]) == multiset(t) - multiset{x};
  }

  /** The totals do not depend on the order of the population (the pool is re-sorted every day). */
  lemma {:induction false} StatsPermutation(s: seq<User>, t: seq<User>)
    requires multiset(s) == multiset(t)
    ensures Stats(s) == Stats(t)
    decreases |s|
  {
    if s == [] {
      assert t == [] by { assert |t| == |multiset(t)|; }
    } else {
      var init, x := s[..|s| - 1], s[|s| - 1];
      assert x in multiset(t);
      var j :| 0 <= j < |t| && t[j] == x;
      MultisetRemove(s, t, j);
      StatsPermutation(init, t[..j] + t[j + 1..]);
      StatsRemove(t, j);
      StatsRemove(s, |s| - 1);
      assert s[..|s| - 1] + s[|s|..] == init;
    }
  }
}
