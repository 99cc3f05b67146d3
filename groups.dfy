/**
  The two groups of a day and what the day needs of them: which users a
  group lists, which pool members a user is not matched with, and the
  state of a round of turns against the counters it began with.
 */
module Groups {
  import opened Users
  import opened Statistics

  /** No user occurs twice in `s`. */
  ghost predicate Distinct(s: seq<User>)
  {
    forall u :: u in multiset(s) ==> multiset(s)[u] <= 1
  }

  /** The users listed in `s`. */
  function Members(s: seq<User>): set<User>
  {
    set u | u in s
  }

  /** The distinct ids of pool members that are not both in `sent` and in `received`. */
  ghost function UnmatchedAmong(sent: seq<int>, received: seq<int>, pool: set<User>): set<int>
  {
    set u | u in pool && !(u.id in sent && u.id in received) :: u.id
  }

  /** The distinct ids of pool members that `mate` is not matched with. */
  ghost function UnmatchedIds(mate: User, pool: set<User>): set<int>
    reads mate
  {
    UnmatchedAmong(mate.usersLikeSent, mate.usersLikeReceived, pool)
  }

  /** What a phase needs of the mate, the pool and the population. */
  ghost predicate PhaseFrame(mate: User, pool: seq<User>, world: set<User>)
    reads world
  {
    && mate in world && mate !in pool && Members(pool) <= world
    && Distinct(pool) && Consistent(world)
  }

  /**
    What a day needs of the swipers and the pool: both inside a consistent
    population, neither repeating a user, no user on both sides, and every
    swiper left with at least a day's budget of pool members to match.
   */
  ghost predicate DayReady(swipers: seq<User>, pool: seq<User>, world: set<User>)
    reads world
  {
    && DayShape(swipers, pool, world) && Consistent(world)
    && forall s :: s in swipers ==> |UnmatchedIds(s, Members(pool))| >= s.profilesPerDay
  }

  /** The two groups lie in the population, neither repeats a user and no user is on both sides. */
  ghost predicate DayShape(swipers: seq<User>, pool: seq<User>, world: set<User>)
  {
    && Members(swipers) <= world && Members(pool) <= world
    && Distinct(swipers) && Distinct(pool) && Members(swipers) !! Members(pool)
  }

  /** The counters of one user at one moment. */
  datatype Counts = Counts(swipes: nat, matches: nat, sent: seq<int>, received: seq<int>)

  /**
    The counters of every user of `users`, in order. The ensures gives the
    entries index by index, the form the round's proofs use.
   */
  ghost function Snap(users: seq<User>): (r: seq<Counts>)
    reads users
    ensures |r| == |users|
    ensures forall k :: 0 <= k < |users| ==> r[k] == Counts(users[k].swipes, users[k].matches,
                                                          users[k].usersLikeSent, users[k].usersLikeReceived)
  {
    seq(|users|, k requires 0 <= k < |users| reads users =>
      Counts(users[k].swipes, users[k].matches, users[k].usersLikeSent, users[k].usersLikeReceived))
  }

  /** The received likes of every user of `users`, in order. */
  function ReceivedLists(users: seq<User>): (r: seq<seq<int>>)
    reads users
    ensures |r| == |users|
  {
    if users == [] then [] else ReceivedLists(users[..|users| - 1]) + [users[|users| - 1].usersLikeReceived]
  }

  /** The received lists are listed member by member. */
  lemma {:induction false} ReceivedListed(users: seq<User>)
    ensures forall k :: 0 <= k < |users| ==> ReceivedLists(users)[k] == users[k].usersLikeReceived
  {
    if users != [] {
      ReceivedListed(users[..|users| - 1]);
    }
  }

  /** Entry `k` of `lists`; naming it lets the mirror below come into play only where a proof names an entry. */
  function ListAt(lists: seq<seq<int>>, k: nat): seq<int>
    requires k < |lists|
  {
    lists[k]
  }

  /** `lists` holds, position by position, the received likes of the members of `pool`. */
  ghost predicate ReceivedAre(pool: seq<User>, lists: seq<seq<int>>)
    reads pool
  {
    && |lists| == |pool|
    && forall k {:trigger ListAt(lists, k)} :: 0 <= k < |pool| ==> pool[k].usersLikeReceived == ListAt(lists, k)
  }

  /** The received lists of a pool are the lists its members hold, and the only ones. */
  lemma ReceivedAreLists(pool: seq<User>, lists: seq<seq<int>>)
    ensures ReceivedAre(pool, lists) <==> ReceivedLists(pool) == lists
  {
    ReceivedListed(pool);
    if ReceivedAre(pool, lists) {
      forall k | 0 <= k < |pool|
        ensures ReceivedLists(pool)[k] == lists[k]
      {
        assert ListAt(lists, k) == lists[k];
      }
    }
    if ReceivedLists(pool) == lists {
      forall k | 0 <= k < |pool|
        ensures pool[k].usersLikeReceived == ListAt(lists, k)
      {
      }
    }
  }

  /**
    The state of a round after the first `i` swipers had their turn, against
    the counters `s0` of the swipers and `p0` of the pool when the round
    began: those swipers spent their budget, the others have not swiped, no
    swiper received a like, the pool did not swipe or like, the match totals
    of both sides rose alike, and each waiting swiper still has a budget's
    worth of pool members it is not matched with.
   */
  ghost predicate RoundAt(swipers: seq<User>, pool: seq<User>, world: set<User>, i: nat,
                          s0: seq<Counts>, p0: seq<Counts>, m0: int)
    reads swipers, pool, world
  {
    && i <= |swipers| == |s0| && |pool| == |p0| && Consistent(world)
    && (forall j :: 0 <= j < |swipers| ==>
          && swipers[j].swipes == s0[j].swipes + (if j < i then swipers[j].profilesPerDay else 0)
          && swipers[j].usersLikeReceived == s0[j].received
          && (i <= j ==> swipers[j].usersLikeSent == s0[j].sent))
    && (forall k :: 0 <= k < |pool| ==> pool[k].swipes == p0[k].swipes && pool[k].usersLikeSent == p0[k].sent)
    && (forall j :: i <= j < |swipers| ==>
          |UnmatchedAmong(s0[j].sent, s0[j].received, Members(pool))| >= swipers[j].profilesPerDay)
    && Sum(MatchesOf(swipers)) - Sum(MatchesOf(pool)) == m0
  }
}
