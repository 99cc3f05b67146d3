/**
  A whole simulation: two populations created with consecutive ids, then
  one `runDay` per direction per day, and the integer totals at the end.
 */
module Simulation {
  import opened Users
  import opened Statistics
  import opened Groups
  import opened Schedule
  import opened Day

  /** The parameters of one population (the like rate is replaced by the injected draw). */
  datatype Population = Population(userCount: nat, profilesSeenPerDay: nat)

  /** The totals of both populations at the end of a simulation. */
  datatype Aggregate = Aggregate(boys: Totals, girls: Totals)

  /** All counters zero and both id lists empty, as the constructor leaves a user. */
  predicate Blank(u: User)
    reads u
  {
    u.likes == 0 && u.matches == 0 && u.swipes == 0 && u.usersLikeSent == [] && u.usersLikeReceived == []
  }

  /** The ids of a set of users. */
  ghost function Ids(users: set<User>): set<int>
    reads users
  {
    set u | u in users :: u.id
  }

  lemma DistinctAppend(s: seq<User>, u: User)
    requires Distinct(s) && u !in s
    ensures Distinct(s + [u])
  {
    assert multiset(s + [u]) == multiset(s) + multiset{u};
    assert multiset(s)[u] == 0;
  }

  /** A duplicate-free population has as many members as positions. */
  lemma {:induction false} DistinctCard(s: seq<User>)
    requires Distinct(s)
    ensures |Members(s)| == |s|
  {
    if s != [] {
      var init, last := s[..|s| - 1], s[|s| - 1];
      assert s == init + [last];
      assert multiset(s) == multiset(init) + multiset{last};
      assert Distinct(init) by {
        forall u | u in multiset(init)
          ensures multiset(init)[u] <= 1
        {
          assert multiset(s)[u] == multiset(init)[u] + multiset{last}[u];
        }
      }
      assert last !in init by {
        assert multiset(s)[last] == multiset(init)[last] + 1;
      }
      DistinctCard(init);
      assert Members(s) == Members(init) + {last};
    }
  }

  /** Users with pairwise different ids have pairwise different ids' worth of cardinality. */
  lemma {:induction false} IdsCard(users: set<User>)
    requires UniqueIds(users)
    ensures |Ids(users)| == |users|
    decreases users
  {
    if users != {} {
      var x :| x in users;
      var rest := users - {x};
      IdsCard(rest);
      assert Ids(users) == Ids(rest) + {x.id};
    }
  }

  /** A list has at most as many distinct entries as entries. */
  lemma {:induction false} ListedCard(xs: seq<int>)
    ensures |set x | x in xs| <= |xs|
  {
    if xs != [] {
      var init := xs[..|xs| - 1];
      ListedCard(init);
      assert xs == init + [xs[|xs| - 1]];
      assert (set x | x in xs) == (set x | x in init) + {xs[|xs| - 1]};
    }
  }

  lemma DiffCard<T>(a: set<T>, b: set<T>)
    ensures |a - b| >= |a| - |b|
  {
    assert a == (a - b) + (a * b);
    SubsetCard(a * b, b);
  }

  /**
    A user that has sent `n` likes is matched with at most `n` members of a
    pool with unique ids: matching needs a like sent to that member's id.
   */
  lemma UnmatchedBound(sent: seq<int>, received: seq<int>, pool: set<User>)
    requires UniqueIds(pool)
    ensures |UnmatchedAmong(sent, received, pool)| >= |pool| - |sent|
  {
    var ids, listed := Ids(pool), set x | x in sent;
    var unmatched := UnmatchedAmong(sent, received, pool);
    forall x | x in ids - listed
      ensures x in unmatched
    {
      var u :| u in pool && u.id == x;
    }
    SubsetCard(ids - listed, unmatched);
    IdsCard(pool);
    ListedCard(sent);
    DiffCard(ids, listed);
  }

  lemma MulMono(a: nat, b: nat, c: nat)
    requires a <= b
    ensures a * c <= b * c
  {
  }

  /**
    After `d` of `days` days every swiper has sent at most `d * ppd` likes,
    so a pool of at least `days * ppd` users still holds `ppd` unmatched
    members for each of them: the day can run to completion.
   */
  lemma DayIsReady(swipers: seq<User>, pool: seq<User>, world: set<User>, ppd: nat, d: nat, days: nat)
    requires DayShape(swipers, pool, world) && Consistent(world)
    requires forall s :: s in swipers ==> s.profilesPerDay == ppd && s.swipes == d * ppd
    requires d < days && days * ppd <= |pool|
    ensures DayReady(swipers, pool, world)
  {
    DistinctCard(pool);
    MulMono(d + 1, days, ppd);
    forall s | s in swipers
      ensures |UnmatchedIds(s, Members(pool))| >= s.profilesPerDay
    {
      assert s in world && WellFormed(s);
      UnmatchedBound(s.usersLikeSent, s.usersLikeReceived, Members(pool));
    }
  }

  /** Creates `count` fresh users of one gender with ids `firstId`, `firstId + 1`, ... (one `push` loop of the source). */
  method CreateUsers(count: nat, firstId: int, gender: Gender, profilesPerDay: nat) returns (users: array<User>)
    ensures fresh(users) && users.Length == count
    ensures forall i :: 0 <= i < count ==> users[i].id == firstId + i
    ensures Distinct(users[..]) && UniqueIds(Members(users[..]))
    ensures forall u :: u in Members(users[..]) ==>
      fresh(u) && Blank(u) && firstId <= u.id < firstId + count && u.gender == gender && u.profilesPerDay == profilesPerDay
  {
    var created: seq<User> := [];
    for i := 0 to count
      invariant |created| == i
      invariant forall k :: 0 <= k < i ==> created[k].id == firstId + k
      invariant Distinct(created) && UniqueIds(Members(created))
      invariant forall u :: u in Members(created) ==>
        fresh(u) && Blank(u) && firstId <= u.id < firstId + i && u.gender == gender && u.profilesPerDay == profilesPerDay
    {
      var u := new User(firstId + i, gender, profilesPerDay);
      DistinctAppend(created, u);
      assert Members(created + [u]) == Members(created) + {u};
      created := created + [u];
    }
    users := new User[count](k requires 0 <= k < count => created[k]);
    assert users[..] == created;
  }

  /**
    One `runDay` between the two population arrays, with what the day loop
    needs about it: the pool array still holds the same users, the
    swipers spent their budget, the pool did not swipe, the pool received
    one like per like drawn and the swipers none, and both populations
    gained the same number of matches. The sort and the order of the turns
    are `RunDay`'s ensures and are not repeated here.
   */
  method HalfDay(swipers: array<User>, pool: array<User>, draw: nat -> bool, next: nat,
                 ghost world: set<User>, ghost ms: set<User>, ghost mp: set<User>, ghost ppd: nat, ghost d: nat, ghost days: nat)
    returns (next': nat)
    requires swipers != pool
    requires Members(swipers[..]) == ms && Members(pool[..]) == mp && ms !! mp && world == ms + mp
    requires Distinct(swipers[..]) && Distinct(pool[..]) && Consistent(world)
    requires forall u :: u in ms ==> u.profilesPerDay == ppd && u.swipes == d * ppd
    requires d < days && days * ppd <= pool.Length
    modifies pool, ms, mp
    ensures swipers[..] == old(swipers[..])
    ensures Members(pool[..]) == mp && Distinct(pool[..]) && Consistent(world)
    ensures next <= next' == next + swipers.Length * ppd
    ensures forall u :: u in ms ==> u.swipes == (d + 1) * ppd
    ensures forall u :: u in mp ==> u.swipes == old(u.swipes)
    ensures Sum(MatchesOf(swipers[..])) - old(Sum(MatchesOf(swipers[..]))) ==
            Sum(MatchesOf(pool[..])) - old(Sum(MatchesOf(pool[..])))
    ensures Sum(LikesOf(pool[..])) == old(Sum(LikesOf(pool[..]))) + Liked(draw, next, next')
    ensures Sum(LikesOf(swipers[..])) == old(Sum(LikesOf(swipers[..])))
  {
    DayIsReady(swipers[..], pool[..], world, ppd, d, days);
    BudgetUniform(swipers[..], swipers.Length, ppd);
    ghost var tr;
    next', tr := RunDay(swipers[..], pool, draw, next, world);
    assert (d + 1) * ppd == d * ppd + ppd;
  }

  /**
    The state of two populations after `d` days: each array holds its
    population without repetition, the whole world is consistent, every
    user has spent `d` budgets, and both sides count the same matches.
   */
  ghost predicate AfterDays(first: array<User>, second: array<User>, world: set<User>, mf: set<User>, ms: set<User>,
                            pf: nat, ps: nat, d: nat)
    reads first, second, world
  {
    && first != second && mf !! ms && world == mf + ms
    && Members(first[..]) == mf && Members(second[..]) == ms
    && Distinct(first[..]) && Distinct(second[..]) && Consistent(world)
    && (forall u :: u in mf ==> u.profilesPerDay == pf && u.swipes == d * pf)
    && (forall u :: u in ms ==> u.profilesPerDay == ps && u.swipes == d * ps)
    && Sum(MatchesOf(first[..])) == Sum(MatchesOf(second[..]))
  }

  /**
    One day with `first` swiping on `second`, then `second` swiping on
    `first`: the first `|first| * pf` draws of the day are the likes
    `second` may receive, the next `|second| * ps` those `first` may
    receive.
   */
  method BothDirections(first: array<User>, second: array<User>, draw: nat -> bool, next: nat,
                        ghost world: set<User>, ghost mf: set<User>, ghost ms: set<User>,
                        ghost pf: nat, ghost ps: nat, ghost d: nat, ghost days: nat)
    returns (middle: nat, next': nat)
    requires AfterDays(first, second, world, mf, ms, pf, ps, d)
    requires d < days && days * pf <= second.Length && days * ps <= first.Length
    modifies first, second, world
    ensures AfterDays(first, second, world, mf, ms, pf, ps, d + 1)
    ensures next <= middle == next + first.Length * pf
    ensures middle <= next' == middle + second.Length * ps
    ensures Sum(LikesOf(second[..])) == old(Sum(LikesOf(second[..]))) + Liked(draw, next, middle)
    ensures Sum(LikesOf(first[..])) == old(Sum(LikesOf(first[..]))) + Liked(draw, middle, next')
  {
    middle := HalfDay(first, second, draw, next, world, mf, ms, pf, d, days);
    assert world == ms + mf;
    next' := HalfDay(second, first, draw, middle, world, ms, mf, ps, d, days);
  }

  /**
    One day of the simulation: both directions, girls swiping first unless
    `reverse`. Which population receives the likes of the day's first
    draws depends on `reverse`; together the two gain one like per like
    drawn.
   */
  method SimulateDay(boys: array<User>, girls: array<User>, reverse: bool, draw: nat -> bool, next: nat,
                     ghost world: set<User>, ghost mb: set<User>, ghost mg: set<User>,
                     ghost pb: nat, ghost pg: nat, ghost d: nat, ghost days: nat)
    returns (middle: nat, next': nat)
    requires AfterDays(boys, girls, world, mb, mg, pb, pg, d)
    requires d < days && days * pb <= girls.Length && days * pg <= boys.Length
    modifies boys, girls, world
    ensures AfterDays(boys, girls, world, mb, mg, pb, pg, d + 1)
    ensures next <= middle <= next' == next + boys.Length * pb + girls.Length * pg
    ensures reverse ==>
      && middle == next + boys.Length * pb
      && Sum(LikesOf(girls[..])) == old(Sum(LikesOf(girls[..]))) + Liked(draw, next, middle)
      && Sum(LikesOf(boys[..])) == old(Sum(LikesOf(boys[..]))) + Liked(draw, middle, next')
    ensures !reverse ==>
      && middle == next + girls.Length * pg
      && Sum(LikesOf(boys[..])) == old(Sum(LikesOf(boys[..]))) + Liked(draw, next, middle)
      && Sum(LikesOf(girls[..])) == old(Sum(LikesOf(girls[..]))) + Liked(draw, middle, next')
    ensures Sum(LikesOf(boys[..])) + Sum(LikesOf(girls[..])) ==
            old(Sum(LikesOf(boys[..])) + Sum(LikesOf(girls[..]))) + Liked(draw, next, next')
  {
    if reverse {
      middle, next' := BothDirections(boys, girls, draw, next, world, mb, mg, pb, pg, d, days);
    } else {
      assert world == mg + mb;
      middle, next' := BothDirections(girls, boys, draw, next, world, mg, mb, pg, pb, d, days);
    }
    LikedSplit(draw, next, middle, next');
  }

  /** Two freshly created populations with consecutive ids form the state after no day. */
  method CreatePopulations(boysPop: Population, girlsPop: Population) returns (boys: array<User>, girls: array<User>)
    ensures fresh(boys) && fresh(girls) && fresh(Members(boys[..]) + Members(girls[..]))
    ensures boys.Length == boysPop.userCount && girls.Length == girlsPop.userCount
    ensures AfterDays(boys, girls, Members(boys[..]) + Members(girls[..]), Members(boys[..]), Members(girls[..]),
                      boysPop.profilesSeenPerDay, girlsPop.profilesSeenPerDay, 0)
    ensures |Members(boys[..])| == boysPop.userCount && |Members(girls[..])| == girlsPop.userCount
    ensures Sum(LikesOf(boys[..])) == 0 && Sum(LikesOf(girls[..])) == 0
    ensures forall u :: u in Members(boys[..]) ==> u.gender == Boy && 0 <= u.id < boysPop.userCount
    ensures forall u :: u in Members(girls[..]) ==>
      u.gender == Girl && boysPop.userCount <= u.id < boysPop.userCount + girlsPop.userCount
  {
    boys := CreateUsers(boysPop.userCount, 0, Boy, boysPop.profilesSeenPerDay);
    girls := CreateUsers(girlsPop.userCount, boys.Length, Girl, girlsPop.profilesSeenPerDay);
    ghost var mb, mg := Members(boys[..]), Members(girls[..]);
    assert UniqueIds(mb + mg) by {
      forall u: User, v: User | u in mb + mg && v in mb + mg && u.id == v.id
        ensures u == v
      {
        assert u in mb <==> u.id < boys.Length;
        assert v in mb <==> v.id < boys.Length;
      }
    }
    FreshConsistent(mb + mg);
    ZeroMatches(boys[..]);
    ZeroMatches(girls[..]);
    LikesZero(boys[..]);
    LikesZero(girls[..]);
    DistinctCard(boys[..]);
    DistinctCard(girls[..]);
  }

  /**
    The day loop of `simulate` on two fresh populations: after `days` days
    every user has spent `days` budgets, the draws used are exactly the
    simulation's swipes, and the two populations together received one
    like per like drawn.
   */
  method RunDays(boys: array<User>, girls: array<User>, boysPop: Population, girlsPop: Population, days: nat,
                 reverse: bool, draw: nat -> bool, ghost world: set<User>, ghost mb: set<User>, ghost mg: set<User>)
    returns (next: nat)
    requires AfterDays(boys, girls, world, mb, mg, boysPop.profilesSeenPerDay, girlsPop.profilesSeenPerDay, 0)
    requires boys.Length == boysPop.userCount && girls.Length == girlsPop.userCount
    requires days * boysPop.profilesSeenPerDay <= girls.Length && days * girlsPop.profilesSeenPerDay <= boys.Length
    requires Sum(LikesOf(boys[..])) == 0 && Sum(LikesOf(girls[..])) == 0
    modifies boys, girls, world
    ensures AfterDays(boys, girls, world, mb, mg, boysPop.profilesSeenPerDay, girlsPop.profilesSeenPerDay, days)
    ensures next == TotalSwipes(boysPop, girlsPop, days)
    ensures Stats(boys[..]).likes == BoysLikes(boysPop, girlsPop, reverse, draw, days)
    ensures Stats(girls[..]).likes == GirlsLikes(boysPop, girlsPop, reverse, draw, days)
    ensures Stats(boys[..]).likes + Stats(girls[..]).likes == Liked(draw, 0, TotalSwipes(boysPop, girlsPop, days))
    ensures 0 <= Stats(boys[..]).matches <= Stats(boys[..]).likes
    ensures 0 <= Stats(girls[..]).matches <= Stats(girls[..]).likes
    ensures (forall n :: 0 <= n < TotalSwipes(boysPop, girlsPop, days) ==> !draw(n)) ==>
            Stats(boys[..]) == Totals(0, 0) && Stats(girls[..]) == Totals(0, 0)
  {
    var pb, pg := boysPop.profilesSeenPerDay, girlsPop.profilesSeenPerDay;
    next := 0;
    for d := 0 to days
      invariant AfterDays(boys, girls, world, mb, mg, pb, pg, d)
      invariant next == TotalSwipes(boysPop, girlsPop, d)
      invariant Sum(LikesOf(boys[..])) == BoysLikes(boysPop, girlsPop, reverse, draw, d)
      invariant Sum(LikesOf(girls[..])) == GirlsLikes(boysPop, girlsPop, reverse, draw, d)
    {
      ghost var boysBefore, girlsBefore := Sum(LikesOf(boys[..])), Sum(LikesOf(girls[..]));
      ghost var start, middle := next, 0;
      middle, next := SimulateDay(boys, girls, reverse, draw, next, world, mb, mg, pb, pg, d, days);
      DaySwipesOf(boysPop, boys.Length, pb);
      DaySwipesOf(girlsPop, girls.Length, pg);
      DayStep(boysPop, girlsPop, reverse, draw, d, start, middle, next,
              boysBefore, Sum(LikesOf(boys[..])), girlsBefore, Sum(LikesOf(girls[..])));
    }
    LikesByPopulation(boysPop, girlsPop, reverse, draw, days);
    if forall n :: 0 <= n < next ==> !draw(n) {
      LikedNone(draw, 0, next);
    }
    QuietTotals(boys[..], girls[..], Liked(draw, 0, next));
  }

  /** The swipes one population makes in a day: every user spends its budget. */
  function DaySwipes(pop: Population): nat
  {
    pop.userCount * pop.profilesSeenPerDay
  }

  /** A population of `count` users with a budget of `budget` each makes `DaySwipes` swipes a day. */
  lemma DaySwipesOf(pop: Population, count: nat, budget: nat)
    requires count == pop.userCount && budget == pop.profilesSeenPerDay
    ensures count * budget == DaySwipes(pop)
  {
  }

  /**
    One day of the day loop adds one day to the likes of each population:
    given what `SimulateDay` reports about the day's draws, the running
    totals become those of one more day.
   */
  lemma DayStep(boysPop: Population, girlsPop: Population, reverse: bool, draw: nat -> bool, d: nat,
                start: nat, middle: nat, next: nat, boysBefore: nat, boysAfter: nat, girlsBefore: nat, girlsAfter: nat)
    requires start == TotalSwipes(boysPop, girlsPop, d) && next == start + DaySwipes(boysPop) + DaySwipes(girlsPop)
    requires boysBefore == BoysLikes(boysPop, girlsPop, reverse, draw, d)
    requires girlsBefore == GirlsLikes(boysPop, girlsPop, reverse, draw, d)
    requires reverse ==>
      && middle == start + DaySwipes(boysPop)
      && girlsAfter == girlsBefore + Liked(draw, start, middle)
      && boysAfter == boysBefore + Liked(draw, middle, next)
    requires !reverse ==>
      && middle == start + DaySwipes(girlsPop)
      && boysAfter == boysBefore + Liked(draw, start, middle)
      && girlsAfter == girlsBefore + Liked(draw, middle, next)
    ensures next == TotalSwipes(boysPop, girlsPop, d + 1)
    ensures boysAfter == BoysLikes(boysPop, girlsPop, reverse, draw, d + 1)
    ensures girlsAfter == GirlsLikes(boysPop, girlsPop, reverse, draw, d + 1)
  {
  }

  /** The number of draws of the first `days` days: every user spends its budget every day. */
  function TotalSwipes(boysPop: Population, girlsPop: Population, days: nat): nat
  {
    if days == 0 then 0 else TotalSwipes(boysPop, girlsPop, days - 1) + DaySwipes(boysPop) + DaySwipes(girlsPop)
  }

  /** The draws of a simulation are `days` times one budget per user. */
  lemma {:induction false} TotalSwipesClosed(boysPop: Population, girlsPop: Population, days: nat)
    ensures TotalSwipes(boysPop, girlsPop, days) == days * (DaySwipes(boysPop) + DaySwipes(girlsPop))
  {
    if days > 0 {
      TotalSwipesClosed(boysPop, girlsPop, days - 1);
      assert days * (DaySwipes(boysPop) + DaySwipes(girlsPop))
          == (days - 1) * (DaySwipes(boysPop) + DaySwipes(girlsPop)) + DaySwipes(boysPop) + DaySwipes(girlsPop);
    }
  }

  /**
    The likes the boys receive on a day whose draws start at `start`, when
    the boys' turns take `b` draws and the girls' turns `g`: the boys
    receive the likes of the girls' turns, which come first unless `reverse`.
   */
  function BoysDay(reverse: bool, draw: nat -> bool, start: nat, b: nat, g: nat): nat
  {
    if reverse then Liked(draw, start + b, start + b + g) else Liked(draw, start, start + g)
  }

  /** The likes the girls receive on such a day: those of the boys' turns, which come first when `reverse`. */
  function GirlsDay(reverse: bool, draw: nat -> bool, start: nat, b: nat, g: nat): nat
  {
    if reverse then Liked(draw, start, start + b) else Liked(draw, start + g, start + g + b)
  }

  /** A day's likes go to one side or the other. */
  lemma DayLikes(reverse: bool, draw: nat -> bool, start: nat, b: nat, g: nat)
    ensures BoysDay(reverse, draw, start, b, g) + GirlsDay(reverse, draw, start, b, g) == Liked(draw, start, start + b + g)
  {
    if reverse {
      LikedSplit(draw, start, start + b, start + b + g);
    } else {
      LikedSplit(draw, start, start + g, start + g + b);
    }
  }

  /**
    The likes the boys receive over the first `days` days; day `d` uses the
    draws from `TotalSwipes(d)` on, the boys' turns taking `DaySwipes(boysPop)`
    of them and the girls' turns `DaySwipes(girlsPop)`.
   */
  function BoysLikes(boysPop: Population, girlsPop: Population, reverse: bool, draw: nat -> bool, days: nat): nat
  {
    if days == 0 then 0
    else
      BoysLikes(boysPop, girlsPop, reverse, draw, days - 1)
        + BoysDay(reverse, draw, TotalSwipes(boysPop, girlsPop, days - 1), DaySwipes(boysPop), DaySwipes(girlsPop))
  }

  /** The likes the girls receive over the first `days` days. */
  function GirlsLikes(boysPop: Population, girlsPop: Population, reverse: bool, draw: nat -> bool, days: nat): nat
  {
    if days == 0 then 0
    else
      GirlsLikes(boysPop, girlsPop, reverse, draw, days - 1)
        + GirlsDay(reverse, draw, TotalSwipes(boysPop, girlsPop, days - 1), DaySwipes(boysPop), DaySwipes(girlsPop))
  }

  /** Every like drawn goes to exactly one population: the boys' and the girls' likes split the draws. */
  lemma {:induction false} LikesByPopulation(boysPop: Population, girlsPop: Population, reverse: bool,
                                             draw: nat -> bool, days: nat)
    ensures BoysLikes(boysPop, girlsPop, reverse, draw, days) + GirlsLikes(boysPop, girlsPop, reverse, draw, days)
            == Liked(draw, 0, TotalSwipes(boysPop, girlsPop, days))
  {
    if days > 0 {
      LikesByPopulation(boysPop, girlsPop, reverse, draw, days - 1);
      var start := TotalSwipes(boysPop, girlsPop, days - 1);
      DayLikes(reverse, draw, start, DaySwipes(boysPop), DaySwipes(girlsPop));
      assert TotalSwipes(boysPop, girlsPop, days) == start + DaySwipes(boysPop) + DaySwipes(girlsPop);
      LikedSplit(draw, 0, start, start + DaySwipes(boysPop) + DaySwipes(girlsPop));
    }
  }

  /**
    The source's `simulate`: boys get ids `0 .. boys - 1`, girls the next
    ids; each day both directions run, girls first unless `reverse`. The
    draw of the n-th swipe of the simulation is `draw(n)`. Every user ends
    with `days` full budgets of swipes, the population stays consistent
    (so each pair's match was counted once, on both sides), and both
    populations count the same total of matches.
   */
  method Simulate(boysPop: Population, girlsPop: Population, days: nat, reverse: bool, draw: nat -> bool)
    returns (r: Aggregate, boys: array<User>, girls: array<User>)
    requires days * boysPop.profilesSeenPerDay <= girlsPop.userCount
    requires days * girlsPop.profilesSeenPerDay <= boysPop.userCount
    ensures fresh(boys) && fresh(girls) && boys != girls
    ensures boys.Length == boysPop.userCount && girls.Length == girlsPop.userCount
    ensures Members(boys[..]) !! Members(girls[..])
    ensures |Members(boys[..])| == boysPop.userCount && |Members(girls[..])| == girlsPop.userCount
    ensures forall u :: u in Members(boys[..]) ==>
      u.gender == Boy && 0 <= u.id < boysPop.userCount && u.swipes == days * boysPop.profilesSeenPerDay
    ensures forall u :: u in Members(girls[..]) ==>
      u.gender == Girl && boysPop.userCount <= u.id < boysPop.userCount + girlsPop.userCount
      && u.swipes == days * girlsPop.profilesSeenPerDay
    ensures Consistent(Members(boys[..]) + Members(girls[..]))
    ensures r == Aggregate(Stats(boys[..]), Stats(girls[..]))
    ensures r.boys.matches == r.girls.matches
    ensures r.boys.likes == BoysLikes(boysPop, girlsPop, reverse, draw, days)
    ensures r.girls.likes == GirlsLikes(boysPop, girlsPop, reverse, draw, days)
    ensures r.boys.likes + r.girls.likes == Liked(draw, 0, TotalSwipes(boysPop, girlsPop, days))
    ensures 0 <= r.boys.matches <= r.boys.likes && 0 <= r.girls.matches <= r.girls.likes
    ensures (forall n :: 0 <= n < TotalSwipes(boysPop, girlsPop, days) ==> !draw(n)) ==>
            r == Aggregate(Totals(0, 0), Totals(0, 0))
  {
    var pb, pg := boysPop.profilesSeenPerDay, girlsPop.profilesSeenPerDay;
    boys, girls := CreatePopulations(boysPop, girlsPop);
    ghost var mb, mg := Members(boys[..]), Members(girls[..]);
    ghost var world := mb + mg;
    var next := RunDays(boys, girls, boysPop, girlsPop, days, reverse, draw, world, mb, mg);
    r := Aggregate(Stats(boys[..]), Stats(girls[..]));
  }

  /** A population of fresh users has no matches. */
  lemma {:induction false} ZeroMatches(users: seq<User>)
    requires forall u :: u in users ==> Blank(u)
    ensures Sum(MatchesOf(users)) == 0
  {
    if users != [] {
      var init := users[..|users| - 1];
      ZeroMatches(init);
      assert users[|users| - 1] in users;
      var m := MatchesOf(users);
      assert m == MatchesOf(init) + [0];
      assert m[..|m| - 1] == MatchesOf(init);
    }
  }

  /** A population of fresh users has received no likes. */
  lemma {:induction false} LikesZero(users: seq<User>)
    requires forall u :: u in users ==> Blank(u)
    ensures Sum(LikesOf(users)) == 0
  {
    if users != [] {
      var init := users[..|users| - 1];
      LikesZero(init);
      assert users[|users| - 1] in users;
    }
  }

  /**
    The totals of two well-formed populations: matches are at most likes on
    each side, and when no like was received at all there is no match either.
   */
  lemma QuietTotals(a: seq<User>, b: seq<User>, likes: int)
    requires forall u :: u in a ==> WellFormed(u)
    requires forall u :: u in b ==> WellFormed(u)
    requires Sum(LikesOf(a)) + Sum(LikesOf(b)) == likes
    ensures 0 <= Stats(a).matches <= Stats(a).likes && 0 <= Stats(b).matches <= Stats(b).likes
    ensures likes == 0 ==> Stats(a) == Totals(0, 0) && Stats(b) == Totals(0, 0)
  {
    MatchesAtMostLikes(a);
    MatchesAtMostLikes(b);
  }

  /**
    In a well-formed population the total matches never exceed the total
    likes received: a user is matched only with ids it received a like
    from, and it holds one received id per like.
   */
  lemma {:induction false} MatchesAtMostLikes(users: seq<User>)
    requires forall u :: u in users ==> WellFormed(u)
    ensures 0 <= Sum(MatchesOf(users)) <= Sum(LikesOf(users))
  {
    if users != [] {
      var init, u := users[..|users| - 1], users[|users| - 1];
      assert forall v :: v in init ==> v in users;
      MatchesAtMostLikes(init);
      assert u in users;
      ListedCard(u.usersLikeReceived);
      SubsetCard(MatchedIds(u), set x | x in u.usersLikeReceived);
    }
  }
}
