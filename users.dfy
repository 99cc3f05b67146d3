/**
  Participants of the matching simulation and the one action that changes
  them: a swipe. The random draw that decides a like is injected as a
  boolean outcome.
 */
module Users {

  datatype Gender = Girl | Boy

  class User {
    const id: int
    const gender: Gender
    /** Daily swipe budget, fixed at creation. */
    const profilesPerDay: nat
    /** Number of likes this user has received. */
    var likes: nat
    /** Number of mutual likes counted for this user. */
    var matches: nat
    /** Number of swipes this user has performed (liked or not). */
    var swipes: nat
    /** Ids this user has liked, in order, duplicates allowed. */
    var usersLikeSent: seq<int>
    /** Ids of the users that liked this user, in order, duplicates allowed. */
    var usersLikeReceived: seq<int>

    constructor (id: int, gender: Gender, profilesPerDay: nat)
      ensures this.id == id && this.gender == gender && this.profilesPerDay == profilesPerDay
      ensures likes == 0 && matches == 0 && swipes == 0
      ensures usersLikeSent == [] && usersLikeReceived == []
    {
      this.id := id;
      this.gender := gender;
      this.profilesPerDay := profilesPerDay;
      likes, matches, swipes := 0, 0, 0;
      usersLikeSent, usersLikeReceived := [], [];
    }

    /** The pair is matched: `otherId` was liked by, and has liked, this user. */
    predicate AlreadyMatched(otherId: int)
      reads this
    {
      otherId in usersLikeSent && otherId in usersLikeReceived
    }

    /**
      This user swipes on `other`; `liked` is the outcome of the random draw
      (the draw did not exceed the like percentage). The swipe is always
      counted; a like is recorded on both sides and, when `other` had already
      liked this user, both match counters rise. A self-swipe is not excluded:
      then the fresh like is its own reciprocal and the counter rises twice.
     */
    method Swipe(other: User, liked: bool)
      modifies this, other
      ensures swipes == old(swipes) + 1
      ensures this != other ==> other.swipes == old(other.swipes)
      ensures other.likes == old(other.likes) + (if liked then 1 else 0)
      ensures other.usersLikeReceived == old(other.usersLikeReceived) + (if liked then [id] else [])
      ensures usersLikeSent == old(usersLikeSent) + (if liked then [other.id] else [])
      ensures this != other ==> likes == old(likes) && usersLikeReceived == old(usersLikeReceived)
      ensures this != other ==> other.usersLikeSent == old(other.usersLikeSent)
      ensures this != other ==>
        var mutual := if liked && id in old(other.usersLikeSent) then 1 else 0;
        matches == old(matches) + mutual && other.matches == old(other.matches) + mutual
      ensures this == other ==> matches == old(matches) + (if liked then 2 else 0)
    {
      swipes := swipes + 1;
      if !liked {
        return;
      }
      other.likes := other.likes + 1;
      other.usersLikeReceived := other.usersLikeReceived + [id];
      usersLikeSent := usersLikeSent + [other.id];
      if id in other.usersLikeSent {
        matches := matches + 1;
        other.matches := other.matches + 1;
      }
    }
  }

  /** The ids this user is matched with. */
  function MatchedIds(u: User): set<int>
    reads u
  {
    set x | x in u.usersLikeSent && x in u.usersLikeReceived
  }

  /** No two users of `world` share an id. */
  predicate UniqueIds(world: set<User>)
  {
    forall u, v :: u in world && v in world && u.id == v.id ==> u == v
  }

  /** The counters of one user agree with its id lists. */
  predicate WellFormed(u: User)
    reads u
  {
    && u.likes == |u.usersLikeReceived|
    && |u.usersLikeSent| <= u.swipes
    && u.matches == |MatchedIds(u)|
  }

  /** Every like is recorded on both sides: v's id is among u's received likes exactly when u's id is among v's sent likes. */
  predicate Ledger(world: set<User>)
    reads world
  {
    forall u, v :: u in world && v in world ==>
      (v.id in u.usersLikeReceived <==> u.id in v.usersLikeSent)
  }

  /** The state invariant of a simulation's population: fresh users satisfy it and swipes between unmatched users keep it. */
  predicate Consistent(world: set<User>)
    reads world
  {
    UniqueIds(world) && Ledger(world) && forall u :: u in world ==> WellFormed(u)
  }

  /** A match is a mutual like, and it is symmetric. */
  lemma MatchedIffMutual(world: set<User>, u: User, v: User)
    requires Ledger(world) && u in world && v in world
    ensures u.AlreadyMatched(v.id) <==> v.id in u.usersLikeSent && u.id in v.usersLikeSent
    ensures u.AlreadyMatched(v.id) <==> v.AlreadyMatched(u.id)
  {
  }

  /** Fresh users form a consistent population. */
  lemma FreshConsistent(world: set<User>)
    requires UniqueIds(world)
    requires forall u :: u in world ==>
      u.likes == 0 && u.matches == 0 && u.swipes == 0 && u.usersLikeSent == [] && u.usersLikeReceived == []
    ensures Consistent(world)
  {
    forall u | u in world
      ensures WellFormed(u)
    {
      assert MatchedIds(u) == {};
    }
  }

  /**
    A swipe between two distinct users that are not yet matched keeps the
    population consistent: in particular a pair's match is counted once, on
    both sides, at the moment the like becomes mutual.
   */
  method SwipeUnmatched(a: User, b: User, liked: bool, ghost world: set<User>)
    requires a in world && b in world && a != b
    requires Consistent(world)
    requires !a.AlreadyMatched(b.id)
    modifies a, b
    ensures Consistent(world)
    ensures a.swipes == old(a.swipes) + 1 && b.swipes == old(b.swipes)
    ensures a.usersLikeSent == old(a.usersLikeSent) + (if liked then [b.id] else [])
    ensures a.usersLikeReceived == old(a.usersLikeReceived)
    ensures b.usersLikeSent == old(b.usersLikeSent)
    ensures b.usersLikeReceived == old(b.usersLikeReceived) + (if liked then [a.id] else [])
    ensures b.likes == old(b.likes) + (if liked then 1 else 0)
    ensures a.matches - old(a.matches) == b.matches - old(b.matches)
    ensures b.matches - old(b.matches) == (if liked && a.id in old(b.usersLikeSent) then 1 else 0)
    ensures liked ==> a.AlreadyMatched(b.id) == (a.id in old(b.usersLikeSent))
  {
    ghost var ma, mb := MatchedIds(a), MatchedIds(b);
    MatchedIffMutual(world, a, b);
    a.Swipe(b, liked);
    if liked {
      assert a.id != b.id;
      if a.id in b.usersLikeSent {
        assert MatchedIds(a) == ma + {b.id};
        assert b.id !in ma;
        assert MatchedIds(b) == mb + {a.id};
        assert a.id !in mb;
      } else {
        assert MatchedIds(a) == ma;
        assert MatchedIds(b) == mb;
      }
    } else {
      assert MatchedIds(a) == ma;
      assert MatchedIds(b) == mb;
    }
    forall u, v | u in world && v in world
      ensures v.id in u.usersLikeReceived <==> u.id in v.usersLikeSent
    {
      assert old(v.id in u.usersLikeReceived <==> u.id in v.usersLikeSent);
    }
    forall u | u in world
      ensures WellFormed(u)
    {
      assert old(WellFormed(u));
    }
  }
}
