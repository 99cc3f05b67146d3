/**
  One simulated day for one direction: every user of the swiping group
  spends exactly its daily budget, first on the users that liked it and
  then, round-robin, on the pool sorted by ascending swipe count.
 */
module Day {
  import opened Users
  import opened Sorting
  import opened Statistics
  import opened Groups
  import opened Schedule

  lemma DistinctAt(s: seq<User>, i: nat, j: nat)
    requires Distinct(s) && i < j < |s|
    ensures s[i] != s[j]
  {
    assert s == s[..j] + s[j..];
    assert s[i] in s[..j] && s[j] in s[j..];
    assert multiset(s)[s[j]] == multiset(s[..j])[s[j]] + multiset(s[j..])[s[j]];
  }

  lemma SubsetCard<T>(a: set<T>, b: set<T>)
    requires a <= b
    ensures |a| <= |b|
    decreases a
  {
    if a != {} {
      var x :| x in a;
      SubsetCard(a - {x}, b - {x});
    }
  }

  /** A swipe matches at most one more pool id, so the unmatched set loses at most one id. */
  lemma UnmatchedLosesAtMostOne(before: set<int>, after: set<int>, id: int)
    requires before - {id} <= after
    ensures |after| >= |before| - 1
  {
    SubsetCard(before - {id}, after);
    if id in before {
      assert before == (before - {id}) + {id};
    } else {
      assert before - {id} == before;
    }
  }

  /** Sending one more like makes at most one more pool id matched. */
  lemma UnmatchedAfterLike(sent: seq<int>, received: seq<int>, pool: set<User>, id: int, liked: bool)
    ensures |UnmatchedAmong(sent + (if liked then [id] else []), received, pool)| >= |UnmatchedAmong(sent, received, pool)| - 1
  {
    var before := UnmatchedAmong(sent, received, pool);
    var after := UnmatchedAmong(sent + (if liked then [id] else []), received, pool);
    assert before - {id} <= after;
    UnmatchedLosesAtMostOne(before, after, id);
  }

  lemma UnmatchedWitness(mate: User, pool: seq<User>) returns (p: nat)
    requires |UnmatchedIds(mate, Members(pool))| > 0
    ensures p < |pool| && !mate.AlreadyMatched(pool[p].id)
  {
    var x :| x in UnmatchedIds(mate, Members(pool));
    var u :| u in Members(pool) && !mate.AlreadyMatched(u.id) && u.id == x;
    p :| 0 <= p < |pool| && pool[p] == u;
  }

  /**
    The ghost progress `s` of a phase agrees with the state: it is `mate`'s,
    with `mate`'s sent likes, `swiped` units of budget spent, `next` the
    next draw, and the received likes of the pool's members.
   */
  ghost predicate Tracks(mate: User, pool: seq<User>, s: Progress, swiped: nat, next: nat)
    reads mate, pool
  {
    s.me == mate.id && s.sent == mate.usersLikeSent && s.swiped == swiped && s.next == next && ReceivedAre(pool, s.lists)
  }

  /**
    The "liked you" phase: walk the ids that liked `mate`, in order, and swipe
    each one that is in the pool and not yet matched, until the daily budget
    is spent. Returns the budget spent and the next draw index; the ghost
    `picks` are the pool positions swiped, in order, and the ghost `lists`
    and `lists'` the pool's received likes, position by position, before and
    after. The phase follows `PriorityAfter` exactly, so each pool member's
    received likes grow by the mate's id once per like drawn on it, in swipe
    order, and the pool gains one like per like drawn.
   */
  method PriorityPhase(mate: User, pool: seq<User>, draw: nat -> bool, next: nat, ghost world: set<User>,
                       ghost lists: seq<seq<int>>)
    returns (swiped: nat, next': nat, ghost picks: seq<nat>, ghost plan: seq<Progress>, ghost lists': seq<seq<int>>)
    requires PhaseFrame(mate, pool, world)
    requires ReceivedAre(pool, lists)
    modifies mate, pool
    ensures PriorityPlan(mate.usersLikeReceived, pool, mate.profilesPerDay, draw,
                         Progress(mate.id, old(mate.usersLikeSent), 0, next, [], lists), plan)
    ensures Progress(mate.id, mate.usersLikeSent, swiped, next', picks, lists') == plan[|mate.usersLikeReceived|]
    ensures ReceivedAre(pool, lists')
    ensures GainedSince(lists', lists, picks, next', draw, mate.id)
    ensures Consistent(world)
    ensures swiped <= mate.profilesPerDay
    ensures next' == next + swiped
    ensures mate.swipes == old(mate.swipes) + swiped
    ensures mate.usersLikeReceived == old(mate.usersLikeReceived)
    ensures |UnmatchedIds(mate, Members(pool))| >= old(|UnmatchedIds(mate, Members(pool))|) - swiped
    ensures forall u :: u in pool ==> u.swipes == old(u.swipes) && u.usersLikeSent == old(u.usersLikeSent)
    ensures mate.matches - old(mate.matches) == Sum(MatchesOf(pool)) - old(Sum(MatchesOf(pool)))
    ensures Sum(LikesOf(pool)) == old(Sum(LikesOf(pool))) + Liked(draw, next, next')
  {
    ghost var received := mate.usersLikeReceived;
    ghost var start := Progress(mate.id, mate.usersLikeSent, 0, next, [], lists);
    plan := PlanPriority(received, pool, mate.profilesPerDay, draw, start);
    swiped, next' := 0, next;
    ghost var g := start;
    var idx := 0;
    while idx < |mate.usersLikeReceived|
      invariant idx <= |received| && mate.usersLikeReceived == received
      invariant g == plan[idx] && Tracks(mate, pool, g, swiped, next')
      invariant swiped <= mate.profilesPerDay
      invariant next' == next + swiped
      invariant mate.swipes == old(mate.swipes) + swiped
      invariant Consistent(world)
      invariant |UnmatchedIds(mate, Members(pool))| >= old(|UnmatchedIds(mate, Members(pool))|) - swiped
      invariant forall u :: u in pool ==> u.swipes == old(u.swipes) && u.usersLikeSent == old(u.usersLikeSent)
      invariant mate.matches - old(mate.matches) == Sum(MatchesOf(pool)) - old(Sum(MatchesOf(pool)))
      invariant Sum(LikesOf(pool)) == old(Sum(LikesOf(pool))) + Liked(draw, next, next')
    {
      if swiped >= mate.profilesPerDay {
        break;
      }
      ghost var before := next';
      swiped, next', g := VisitLiker(mate, pool, idx, draw, swiped, next', world, g);
      PlanStep(received, pool, mate.profilesPerDay, draw, start, plan, idx);
      LikedSplit(draw, next, before, next');
      idx := idx + 1;
    }
    if idx < |received| {
      PlanStops(received, pool, mate.profilesPerDay, draw, start, plan, idx);
    } else {
      assert idx == |received|;
    }
    picks, lists' := g.picks, g.lists;
    PriorityGained(received, pool, mate.profilesPerDay, draw, start, |received|);
    assert plan[|received|] == PriorityAfter(received, pool, mate.profilesPerDay, draw, start, |received|);
  }

  /**
    The liked-you phase meets the received id at `idx` with budget left:
    `mate` swipes the pool member with that id when there is one and the
    pair is not matched: the phase's progress (budget spent, draw index,
    positions swiped and, in the ghost `lists`, the pool's received likes)
    takes exactly one `PriorityStep`, so the swiped member's received likes
    gain the mate's id exactly when that swipe draws a like.
   */
  method VisitLiker(mate: User, pool: seq<User>, idx: nat, draw: nat -> bool, swiped: nat, next: nat,
                    ghost world: set<User>, ghost s: Progress)
    returns (swiped': nat, next': nat, ghost s': Progress)
    requires PhaseFrame(mate, pool, world) && swiped < mate.profilesPerDay && idx < |mate.usersLikeReceived|
    requires Tracks(mate, pool, s, swiped, next)
    modifies mate, pool
    ensures mate.usersLikeReceived == old(mate.usersLikeReceived)
    ensures s' == PriorityStep(mate.usersLikeReceived, pool, mate.profilesPerDay, draw, s, mate.usersLikeReceived[idx])
    ensures Tracks(mate, pool, s', swiped', next')
    ensures Consistent(world)
    ensures swiped <= swiped' <= swiped + 1 && next' == next + (swiped' - swiped)
    ensures swiped' > swiped && draw(next) ==> mate.AlreadyMatched(mate.usersLikeReceived[idx])
    ensures mate.swipes == old(mate.swipes) + (swiped' - swiped)
    ensures |UnmatchedIds(mate, Members(pool))| >= old(|UnmatchedIds(mate, Members(pool))|) - (swiped' - swiped)
    ensures forall u :: u in pool ==> u.swipes == old(u.swipes) && u.usersLikeSent == old(u.usersLikeSent)
    ensures mate.matches - old(mate.matches) == Sum(MatchesOf(pool)) - old(Sum(MatchesOf(pool)))
    ensures Sum(LikesOf(pool)) == old(Sum(LikesOf(pool))) + Liked(draw, next, next')
  {
    swiped', next', s' := swiped, next, s;
    var id := mate.usersLikeReceived[idx];
    var found := FindById(pool, id);
    var alreadyMatched := mate.AlreadyMatched(id);
    if found.Some? && !alreadyMatched {
      TrackedSwipe(mate, pool, found.value, draw, next, world, s);
      swiped', next' := swiped + 1, next + 1;
      s' := SwipeAt(s, found.value, id, draw);
    }
  }

  /**
    The browsing phase: take pool members round-robin from the shared
    cursor, skipping (without spending budget) those already matched with
    `mate`, until the daily budget is spent. Returns the next draw index and
    the advanced cursor; the ghost `picks` are the positions swiped, `pulls`
    the number of members taken and `plan` the phase's progress after each
    pull, so the phase ends where `FillAfter` does after `pulls` pulls. The
    cursor moves on by one per pull. The ghost `lists` and `lists'` are the
    pool's received likes before and after: each member's grow by the mate's
    id once per like drawn on it, in swipe order, and the pool gains one
    like per like drawn.
   */
  method FillPhase(mate: User, pool: seq<User>, draw: nat -> bool, next: nat, cursor: nat, swiped0: nat,
                   ghost world: set<User>, ghost lists: seq<seq<int>>)
    returns (next': nat, cursor': nat, ghost picks: seq<nat>, ghost pulls: nat, ghost plan: seq<(Progress, nat)>,
             ghost lists': seq<seq<int>>)
    requires PhaseFrame(mate, pool, world) && CursorIn(cursor, |pool|)
    requires ReceivedAre(pool, lists)
    requires swiped0 <= mate.profilesPerDay
    requires |UnmatchedIds(mate, Members(pool))| >= mate.profilesPerDay - swiped0
    modifies mate, pool
    ensures FillPlan(mate.usersLikeReceived, pool, mate.profilesPerDay, draw,
                     Progress(mate.id, old(mate.usersLikeSent), swiped0, next, [], lists), cursor, plan)
    ensures |plan| == pulls + 1
    ensures plan[pulls] == (Progress(mate.id, mate.usersLikeSent, mate.profilesPerDay, next', picks, lists'), cursor')
    ensures ReceivedAre(pool, lists')
    ensures cursor' == Rotated(cursor, pulls, |pool|)
    ensures Consistent(world) && CursorIn(cursor', |pool|)
    ensures next' == next + (mate.profilesPerDay - swiped0)
    ensures mate.swipes == old(mate.swipes) + (mate.profilesPerDay - swiped0)
    ensures mate.usersLikeReceived == old(mate.usersLikeReceived)
    ensures forall u :: u in pool ==> u.swipes == old(u.swipes) && u.usersLikeSent == old(u.usersLikeSent)
    ensures mate.matches - old(mate.matches) == Sum(MatchesOf(pool)) - old(Sum(MatchesOf(pool)))
    ensures Sum(LikesOf(pool)) == old(Sum(LikesOf(pool))) + Liked(draw, next, next')
    ensures |picks| == mate.profilesPerDay - swiped0
    ensures GainedSince(lists', lists, picks, next', draw, mate.id)
  {
    ghost var received := mate.usersLikeReceived;
    ghost var start := Progress(mate.id, mate.usersLikeSent, swiped0, next, [], lists);
    ghost var g;
    next', cursor', pulls, g := FillPulls(mate, pool, draw, next, cursor, swiped0, world, start);
    picks, lists' := g.picks, g.lists;
    plan := PlanFill(received, pool, mate.profilesPerDay, draw, start, cursor, pulls);
    FillAccounted(received, pool, mate.profilesPerDay, draw, start, cursor, pulls);
    FillGained(received, pool, mate.profilesPerDay, draw, start, cursor, pulls);
    assert plan[pulls] == FillAfter(received, pool, mate.profilesPerDay, draw, start, cursor, pulls);
  }

  /**
    The pulls of the fill phase, from the progress `start`: they end with the
    budget spent, where `FillAfter` ends after `pulls` pulls.
   */
  method FillPulls(mate: User, pool: seq<User>, draw: nat -> bool, next: nat, cursor: nat, swiped0: nat,
                   ghost world: set<User>, ghost start: Progress)
    returns (next': nat, cursor': nat, ghost pulls: nat, ghost g: Progress)
    requires PhaseFrame(mate, pool, world) && CursorIn(cursor, |pool|)
    requires Tracks(mate, pool, start, swiped0, next)
    requires swiped0 <= mate.profilesPerDay
    requires |UnmatchedIds(mate, Members(pool))| >= mate.profilesPerDay - swiped0
    modifies mate, pool
    ensures (g, cursor') == FillAfter(mate.usersLikeReceived, pool, mate.profilesPerDay, draw, start, cursor, pulls)
    ensures Tracks(mate, pool, g, mate.profilesPerDay, next')
    ensures cursor' == Rotated(cursor, pulls, |pool|)
    ensures Consistent(world) && CursorIn(cursor', |pool|)
    ensures next' == next + (mate.profilesPerDay - swiped0)
    ensures mate.swipes == old(mate.swipes) + (mate.profilesPerDay - swiped0)
    ensures mate.usersLikeReceived == old(mate.usersLikeReceived)
    ensures forall u :: u in pool ==> u.swipes == old(u.swipes) && u.usersLikeSent == old(u.usersLikeSent)
    ensures mate.matches - old(mate.matches) == Sum(MatchesOf(pool)) - old(Sum(MatchesOf(pool)))
    ensures Sum(LikesOf(pool)) == old(Sum(LikesOf(pool))) + Liked(draw, next, next')
  {
    ghost var received := mate.usersLikeReceived;
    var swiped := swiped0;
    next', cursor' := next, cursor;
    pulls := 0;
    g := start;
    // Termination: while budget remains, some pool position `goal` holds a
    // member not matched with `mate`, which the cursor reaches.
    ghost var goal: nat := 0;
    if swiped < mate.profilesPerDay {
      goal := UnmatchedWitness(mate, pool);
    }
    while swiped < mate.profilesPerDay
      invariant swiped0 <= swiped <= mate.profilesPerDay
      invariant mate.usersLikeReceived == received
      invariant (g, cursor') == FillAfter(received, pool, mate.profilesPerDay, draw, start, cursor, pulls)
      invariant Tracks(mate, pool, g, swiped, next')
      invariant cursor' == Rotated(cursor, pulls, |pool|)
      invariant next' == next + (swiped - swiped0)
      invariant CursorIn(cursor', |pool|)
      invariant mate.swipes == old(mate.swipes) + (swiped - swiped0)
      invariant Consistent(world)
      invariant |UnmatchedIds(mate, Members(pool))| >= mate.profilesPerDay - swiped
      invariant swiped < mate.profilesPerDay ==> goal < |pool| && !mate.AlreadyMatched(pool[goal].id)
      invariant forall u :: u in pool ==> u.swipes == old(u.swipes) && u.usersLikeSent == old(u.usersLikeSent)
      invariant mate.matches - old(mate.matches) == Sum(MatchesOf(pool)) - old(Sum(MatchesOf(pool)))
      invariant Sum(LikesOf(pool)) == old(Sum(LikesOf(pool))) + Liked(draw, next, next')
      decreases mate.profilesPerDay - swiped, Gap(cursor', goal, |pool|)
    {
      ghost var before := next';
      ghost var pulled := (g, cursor');
      swiped, next', cursor', goal, g := Pull(mate, pool, draw, swiped, next', cursor', world, goal, g);
      assert FillAfter(received, pool, mate.profilesPerDay, draw, start, cursor, pulls + 1)
          == FillStep(received, pool, mate.profilesPerDay, draw, pulled.0, pulled.1);
      assert Rotated(cursor, pulls + 1, |pool|) == Advance(Rotated(cursor, pulls, |pool|), |pool|);
      pulls := pulls + 1;
      LikedSplit(draw, next, before, next');
    }
  }

  /**
    One pull of the fill phase with budget left: the member at `cursor` is
    passed over when `mate` is matched with it and swiped otherwise, and the
    cursor advances round-robin. The phase's progress (budget spent, draw
    index, positions swiped and, in the ghost `lists`, the pool's received
    likes) and the cursor take exactly one `FillStep`, so the swiped
    member's received likes gain the mate's id exactly when the swipe draws
    a like. While budget remains, `goal'` is a pool member not matched with
    `mate`, and a pass-over brings the cursor closer to it.
   */
  method Pull(mate: User, pool: seq<User>, draw: nat -> bool, swiped: nat, next: nat, cursor: nat,
              ghost world: set<User>, ghost goal: nat, ghost s: Progress)
    returns (swiped': nat, next': nat, cursor': nat, ghost goal': nat, ghost s': Progress)
    requires PhaseFrame(mate, pool, world) && swiped < mate.profilesPerDay && CursorIn(cursor, |pool|)
    requires goal < |pool| && !mate.AlreadyMatched(pool[goal].id)
    requires |UnmatchedIds(mate, Members(pool))| >= mate.profilesPerDay - swiped
    requires Tracks(mate, pool, s, swiped, next)
    modifies mate, pool
    ensures mate.usersLikeReceived == old(mate.usersLikeReceived)
    ensures (s', cursor') == FillStep(mate.usersLikeReceived, pool, mate.profilesPerDay, draw, s, cursor)
    ensures Tracks(mate, pool, s', swiped', next')
    ensures cursor' == Advance(cursor, |pool|) && CursorIn(cursor', |pool|)
    ensures swiped <= swiped' <= mate.profilesPerDay && next' == next + (swiped' - swiped)
    ensures swiped' < mate.profilesPerDay ==> goal' < |pool| && !mate.AlreadyMatched(pool[goal'].id)
    ensures swiped' == swiped ==> goal' == goal && Gap(cursor', goal, |pool|) < Gap(cursor, goal, |pool|)
    ensures Consistent(world)
    ensures mate.swipes == old(mate.swipes) + (swiped' - swiped)
    ensures |UnmatchedIds(mate, Members(pool))| >= mate.profilesPerDay - swiped'
    ensures forall u :: u in pool ==> u.swipes == old(u.swipes) && u.usersLikeSent == old(u.usersLikeSent)
    ensures mate.matches - old(mate.matches) == Sum(MatchesOf(pool)) - old(Sum(MatchesOf(pool)))
    ensures Sum(LikesOf(pool)) == old(Sum(LikesOf(pool))) + Liked(draw, next, next')
  {
    var candidate := pool[cursor];
    cursor' := Advance(cursor, |pool|);
    swiped', next', goal', s' := swiped, next, goal, s;
    ghost var step := FillStep(mate.usersLikeReceived, pool, mate.profilesPerDay, draw, s, cursor);
    if mate.AlreadyMatched(candidate.id) {
      assert step == (s, cursor');
      GapShrinks(cursor, goal, |pool|);
    } else {
      assert step == (SwipeAt(s, cursor, candidate.id, draw), cursor');
      TrackedSwipe(mate, pool, cursor, draw, next, world, s);
      swiped', next' := swiped + 1, next + 1;
      s' := SwipeAt(s, cursor, candidate.id, draw);
      if swiped' < mate.profilesPerDay {
        goal' := UnmatchedWitness(mate, pool);
      }
    }
  }

  /**
    `mate` swipes the pool member at `position`, which it is not matched
    with, and `liked` is the draw: on a like the member's id joins the
    mate's sent likes and the mate's id the member's received likes, so the
    pool gains exactly one like. The mate's new matches are exactly the
    pool's new matches, and the mate's unmatched set loses at most that
    member's id.
   */
  method SwipeCandidate(mate: User, pool: seq<User>, position: nat, liked: bool, ghost world: set<User>)
    requires PhaseFrame(mate, pool, world)
    requires position < |pool| && !mate.AlreadyMatched(pool[position].id)
    modifies mate, pool[position]
    ensures Consistent(world)
    ensures mate.swipes == old(mate.swipes) + 1
    ensures mate.usersLikeSent == old(mate.usersLikeSent) + (if liked then [pool[position].id] else [])
    ensures mate.usersLikeReceived == old(mate.usersLikeReceived)
    ensures pool[position].usersLikeReceived == old(pool[position].usersLikeReceived) + (if liked then [mate.id] else [])
    ensures |UnmatchedIds(mate, Members(pool))| >= old(|UnmatchedIds(mate, Members(pool))|) - 1
    ensures forall u :: u in pool ==> u.swipes == old(u.swipes) && u.usersLikeSent == old(u.usersLikeSent)
    ensures mate.matches - old(mate.matches) == Sum(MatchesOf(pool)) - old(Sum(MatchesOf(pool)))
    ensures Sum(LikesOf(pool)) == old(Sum(LikesOf(pool))) + (if liked then 1 else 0)
  {
    var candidate := pool[position];
    ghost var sent, received := mate.usersLikeSent, mate.usersLikeReceived;
    ghost var likesBefore, matchesBefore := LikesOf(pool), MatchesOf(pool);
    CountersOf(pool);
    OthersDiffer(pool, position);
    SwipeUnmatched(mate, candidate, liked, world);
    UnmatchedAfterLike(sent, received, Members(pool), candidate.id, liked);
    CountersChangedAt(pool, position, likesBefore, matchesBefore);
  }

  /**
    The swipe of `SwipeCandidate` with draw `next`, seen by the phase's
    progress `s`: the new state is the one `SwipeAt` gives, so exactly the
    swiped member's received likes change, by the mate's id on a like.
   */
  method TrackedSwipe(mate: User, pool: seq<User>, position: nat, draw: nat -> bool, next: nat,
                      ghost world: set<User>, ghost s: Progress)
    requires PhaseFrame(mate, pool, world)
    requires position < |pool| && !mate.AlreadyMatched(pool[position].id)
    requires Tracks(mate, pool, s, s.swiped, next)
    modifies mate, pool[position]
    ensures Tracks(mate, pool, SwipeAt(s, position, pool[position].id, draw), s.swiped + 1, next + 1)
    ensures Consistent(world)
    ensures mate.swipes == old(mate.swipes) + 1
    ensures mate.usersLikeReceived == old(mate.usersLikeReceived)
    ensures |UnmatchedIds(mate, Members(pool))| >= old(|UnmatchedIds(mate, Members(pool))|) - 1
    ensures forall u :: u in pool ==> u.swipes == old(u.swipes) && u.usersLikeSent == old(u.usersLikeSent)
    ensures mate.matches - old(mate.matches) == Sum(MatchesOf(pool)) - old(Sum(MatchesOf(pool)))
    ensures Sum(LikesOf(pool)) == old(Sum(LikesOf(pool))) + (if draw(next) then 1 else 0)
  {
    OthersDiffer(pool, position);
    SwipeCandidate(mate, pool, position, draw(next), world);
    ghost var s' := SwipeAt(s, position, pool[position].id, draw);
    assert s'.lists == s.lists[position := s.lists[position] + Gained(draw(next), mate.id)];
    forall k | 0 <= k < |pool|
      ensures pool[k].usersLikeReceived == ListAt(s'.lists, k)
    {
      assert old(pool[k].usersLikeReceived) == ListAt(s.lists, k);
      if k != position {
        assert pool[k] != pool[position];
      }
    }
  }

  lemma OthersDiffer(pool: seq<User>, position: nat)
    requires Distinct(pool) && position < |pool|
    ensures forall k :: 0 <= k < |pool| && k != position ==> pool[k] != pool[position]
  {
    forall k | 0 <= k < |pool| && k != position
      ensures pool[k] != pool[position]
    {
      if k < position { DistinctAt(pool, k, position); } else { DistinctAt(pool, position, k); }
    }
  }

  lemma CountersChangedAt(users: seq<User>, position: nat, likes: seq<int>, matches: seq<int>)
    requires position < |users| == |likes| == |matches|
    requires forall k :: 0 <= k < |users| && k != position ==> users[k].likes == likes[k] && users[k].matches == matches[k]
    ensures Sum(LikesOf(users)) == Sum(likes) - likes[position] + users[position].likes
    ensures Sum(MatchesOf(users)) == Sum(matches) - matches[position] + users[position].matches
  {
    CountersOf(users);
    assert LikesOf(users) == likes[position := users[position].likes];
    assert MatchesOf(users) == matches[position := users[position].matches];
    SumUpdate(likes, position, users[position].likes);
    SumUpdate(matches, position, users[position].matches);
  }

  /**
    One swiper's turn of the day: the priority phase, then the fill phase
    for the rest of its budget, from the shared cursor. The turn follows
    `TurnAfter` exactly, swiping the positions `picks`, and each pool
    member's received likes (the ghost `lists` before, `lists'` after) grow
    by the mate's id once per like drawn on it, in swipe order.
   */
  method SwiperTurn(mate: User, pool: seq<User>, draw: nat -> bool, next: nat, cursor: nat, ghost world: set<User>,
                    ghost lists: seq<seq<int>>)
    returns (next': nat, cursor': nat, ghost pulls: nat, ghost picks: seq<nat>, ghost lists': seq<seq<int>>)
    requires PhaseFrame(mate, pool, world) && CursorIn(cursor, |pool|)
    requires |UnmatchedIds(mate, Members(pool))| >= mate.profilesPerDay
    requires ReceivedAre(pool, lists)
    modifies mate, pool
    ensures TurnTaken(mate.id, old(mate.usersLikeSent), mate.usersLikeReceived, lists, pool, mate.profilesPerDay, draw,
                      next, cursor, pulls, picks, mate.usersLikeSent, lists', next', cursor')
    ensures ReceivedAre(pool, lists')
    ensures Consistent(world) && CursorIn(cursor', |pool|)
    ensures next' == next + mate.profilesPerDay
    ensures mate.swipes == old(mate.swipes) + mate.profilesPerDay
    ensures mate.usersLikeReceived == old(mate.usersLikeReceived)
    ensures forall u :: u in pool ==> u.swipes == old(u.swipes) && u.usersLikeSent == old(u.usersLikeSent)
    ensures mate.matches - old(mate.matches) == Sum(MatchesOf(pool)) - old(Sum(MatchesOf(pool)))
    ensures Sum(LikesOf(pool)) == old(Sum(LikesOf(pool))) + Liked(draw, next, next')
  {
    var swiped, middle;
    ghost var priorityPicks, fillPicks, priorityPlan, fillPlan, mid;
    swiped, middle, priorityPicks, priorityPlan, mid := PriorityPhase(mate, pool, draw, next, world, lists);
    next', cursor', fillPicks, pulls, fillPlan, lists' := FillPhase(mate, pool, draw, middle, cursor, swiped, world, mid);
    picks := priorityPicks + fillPicks;
    if |pool| > 0 {
      RotatedMod(cursor, pulls, |pool|);
    }
    LikedSplit(draw, next, middle, next');
  }

  /** The daily swipe budget of the first `n` users of a group, together. */
  function Budget(group: seq<User>, n: nat): nat
    requires n <= |group|
  {
    if n == 0 then 0 else Budget(group, n - 1) + group[n - 1].profilesPerDay
  }

  /** When every user of a group sees `ppd` profiles a day, `n` of them spend `n * ppd` swipes. */
  lemma {:induction false} BudgetUniform(group: seq<User>, n: nat, ppd: nat)
    requires n <= |group| && forall u :: u in group ==> u.profilesPerDay == ppd
    ensures Budget(group, n) == n * ppd
  {
    if n > 0 {
      BudgetUniform(group, n - 1, ppd);
      assert group[n - 1] in group;
    }
  }

  /** Reordering the pool keeps a day ready and keeps the pool's totals. */
  lemma ReadyPermuted(swipers: seq<User>, pool: seq<User>, sorted: seq<User>, world: set<User>)
    requires multiset(sorted) == multiset(pool) && DayReady(swipers, pool, world)
    ensures DayReady(swipers, sorted, world) && Members(sorted) == Members(pool)
    ensures Stats(sorted) == Stats(pool)
  {
    forall u
      ensures u in sorted <==> u in pool
    {
      assert u in sorted <==> u in multiset(sorted);
    }
    assert Members(sorted) == Members(pool);
    StatsPermutation(sorted, pool);
  }

  /** A round starts with no turn taken, from the counters of that moment. */
  lemma RoundStart(swipers: seq<User>, pool: seq<User>, world: set<User>)
    requires DayReady(swipers, pool, world)
    ensures RoundAt(swipers, pool, world, 0, Snap(swipers), Snap(pool), Sum(MatchesOf(swipers)) - Sum(MatchesOf(pool)))
  {
    var s0 := Snap(swipers);
    forall j | 0 <= j < |swipers|
      ensures |UnmatchedAmong(s0[j].sent, s0[j].received, Members(pool))| >= swipers[j].profilesPerDay
    {
      assert swipers[j] in swipers;
    }
  }

  /**
    The first `i` swipers took their turns in order, as `TurnsTaken` says,
    and each of them now holds the sent likes its turn left.
   */
  ghost predicate Scheduled(swipers: seq<User>, pool: seq<User>, i: nat, s0: seq<Counts>, draw: nat -> bool,
                            next0: nat, tr: Trace)
    reads swipers
  {
    && TurnsTaken(swipers, pool, i, s0, draw, next0, tr)
    && forall j :: 0 <= j < i ==> swipers[j].usersLikeSent == tr.sents[j]
  }

  /**
    Each swiper in turn spends its whole budget on the (already sorted)
    pool, with one cursor shared by all swipers (the `forEach` of the
    source's `runDay`). The turns follow `TurnAfter` one after the other,
    the cursor starting at 0 and passing from each turn to the next, as the
    ghost trace `tr` records. Each pool member's received likes grow by
    what the turns' swipes gave it, in turn order (`RoundReceived`), so the
    pool gains one like per like drawn; the swipers receive no likes, the
    pool members do not swipe, and the swipers' total new matches equal the
    pool's.
   */
  method SwipeRound(swipers: seq<User>, pool: seq<User>, draw: nat -> bool, next: nat, ghost world: set<User>)
    returns (next': nat, ghost tr: Trace)
    requires DayReady(swipers, pool, world)
    modifies Members(swipers), Members(pool)
    ensures Scheduled(swipers, pool, |swipers|, old(Snap(swipers)), draw, next, tr) && tr.nexts[|swipers|] == next'
    ensures Consistent(world)
    ensures next' == next + Budget(swipers, |swipers|)
    ensures forall j :: 0 <= j < |swipers| ==>
      swipers[j].swipes == old(swipers[j].swipes) + swipers[j].profilesPerDay
      && swipers[j].usersLikeReceived == old(swipers[j].usersLikeReceived)
    ensures forall k :: 0 <= k < |pool| ==>
      pool[k].swipes == old(pool[k].swipes) && pool[k].usersLikeSent == old(pool[k].usersLikeSent)
    ensures Sum(MatchesOf(swipers)) - old(Sum(MatchesOf(swipers))) == Sum(MatchesOf(pool)) - old(Sum(MatchesOf(pool)))
    ensures Sum(LikesOf(pool)) == old(Sum(LikesOf(pool))) + Liked(draw, next, next')
    ensures Sum(LikesOf(swipers)) == old(Sum(LikesOf(swipers)))
    ensures RoundReceived(ReceivedLists(pool), old(ReceivedLists(pool)), swipers, tr.picks, tr.nexts, draw, |swipers|)
  {
    ghost var s0, p0 := Snap(swipers), Snap(pool);
    ghost var r0 := ReceivedLists(pool);
    ReceivedAreLists(pool, r0);
    ghost var m0 := Sum(MatchesOf(swipers)) - Sum(MatchesOf(pool));
    ghost var likes0 := Sum(LikesOf(pool));
    RoundStart(swipers, pool, world);
    var cursor := 0;
    next' := next;
    tr := Trace([0], [next], [], [], [], [r0]);
    for i := 0 to |swipers|
      invariant RoundAt(swipers, pool, world, i, s0, p0, m0)
      invariant Scheduled(swipers, pool, i, s0, draw, next, tr)
      invariant tr.cursors[i] == cursor && tr.nexts[i] == next' && CursorIn(cursor, |pool|)
      invariant next' == next + Budget(swipers, i)
      invariant Sum(LikesOf(pool)) == likes0 + Liked(draw, next, next')
      invariant Sum(LikesOf(swipers)) == old(Sum(LikesOf(swipers)))
      invariant tr.lists[0] == r0
      invariant ReceivedAre(pool, tr.lists[i])
    {
      ghost var before := next';
      next', cursor, tr := NextTurn(swipers, i, pool, draw, next', cursor, world, s0, p0, m0, next, tr);
      LikedSplit(draw, next, before, next');
    }
    RoundUpTo(swipers, pool, |swipers|, s0, draw, next, tr, |swipers|);
    ReceivedAreLists(pool, tr.lists[|swipers|]);
  }

  /**
    The turn of `swipers[i]` takes the round from `i` to `i + 1` finished
    turns; the trace grows by that turn's picks and draws.
   */
  method NextTurn(swipers: seq<User>, i: nat, pool: seq<User>, draw: nat -> bool, next: nat, cursor: nat,
                  ghost world: set<User>, ghost s0: seq<Counts>, ghost p0: seq<Counts>, ghost m0: int,
                  ghost next0: nat, ghost tr: Trace)
    returns (next': nat, cursor': nat, ghost tr': Trace)
    requires i < |swipers| && DayShape(swipers, pool, world) && CursorIn(cursor, |pool|)
    requires RoundAt(swipers, pool, world, i, s0, p0, m0)
    requires Scheduled(swipers, pool, i, s0, draw, next0, tr) && tr.cursors[i] == cursor && tr.nexts[i] == next
    requires ReceivedAre(pool, tr.lists[i])
    modifies swipers[i], pool
    ensures RoundAt(swipers, pool, world, i + 1, s0, p0, m0) && CursorIn(cursor', |pool|)
    ensures Scheduled(swipers, pool, i + 1, s0, draw, next0, tr') && tr'.cursors[i + 1] == cursor' && tr'.nexts[i + 1] == next'
    ensures next' == next + swipers[i].profilesPerDay
    ensures Sum(LikesOf(pool)) == old(Sum(LikesOf(pool))) + Liked(draw, next, next')
    ensures Sum(LikesOf(swipers)) == old(Sum(LikesOf(swipers)))
    ensures tr'.lists[0] == tr.lists[0]
    ensures ReceivedAre(pool, tr'.lists[i + 1])
  {
    next', cursor', tr' := TurnAt(swipers, i, pool, draw, next, cursor, world, s0, next0, tr);
    forall j | 0 <= j < |swipers|
      ensures swipers[j].swipes == s0[j].swipes + (if j < i + 1 then swipers[j].profilesPerDay else 0)
      ensures swipers[j].usersLikeReceived == s0[j].received
      ensures i + 1 <= j ==> swipers[j].usersLikeSent == s0[j].sent
    {
      assert old(swipers[j].swipes) == s0[j].swipes + (if j < i then swipers[j].profilesPerDay else 0);
    }
    forall j | 0 <= j < i + 1
      ensures swipers[j].usersLikeSent == tr'.sents[j]
    {
      if j < i {
        assert old(swipers[j].usersLikeSent) == tr.sents[j];
      }
    }
  }

  /**
    The turn of `swipers[i]`, whose like lists are still those of `s0[i]`,
    in a round whose first `i` turns the trace `tr` records: it follows
    `TurnAfter` from those lists, the draw `next`, the cursor `cursor` and
    the pool's received likes `tr.lists[i]`, and the trace grows by that
    turn (its pulls, picks, sent likes, the pool's received likes after it,
    its last draw and cursor). The other swipers are untouched.
   */
  method TurnAt(swipers: seq<User>, i: nat, pool: seq<User>, draw: nat -> bool, next: nat, cursor: nat,
                ghost world: set<User>, ghost s0: seq<Counts>, ghost next0: nat, ghost tr: Trace)
    returns (next': nat, cursor': nat, ghost tr': Trace)
    requires i < |swipers| && DayShape(swipers, pool, world) && Consistent(world) && CursorIn(cursor, |pool|)
    requires TurnsTaken(swipers, pool, i, s0, draw, next0, tr) && tr.nexts[i] == next && tr.cursors[i] == cursor
    requires swipers[i].usersLikeSent == s0[i].sent && swipers[i].usersLikeReceived == s0[i].received
    requires |UnmatchedAmong(s0[i].sent, s0[i].received, Members(pool))| >= swipers[i].profilesPerDay
    requires ReceivedAre(pool, tr.lists[i])
    modifies swipers[i], pool
    ensures TurnsTaken(swipers, pool, i + 1, s0, draw, next0, tr') && tr'.cursors[i + 1] == cursor' && tr'.nexts[i + 1] == next'
    ensures tr'.sents == tr.sents + [swipers[i].usersLikeSent] && tr'.lists[0] == tr.lists[0]
    ensures ReceivedAre(pool, tr'.lists[i + 1])
    ensures Consistent(world) && CursorIn(cursor', |pool|)
    ensures next' == next + swipers[i].profilesPerDay
    ensures swipers[i].swipes == old(swipers[i].swipes) + swipers[i].profilesPerDay
    ensures forall j :: 0 <= j < |swipers| && j != i ==>
      swipers[j].swipes == old(swipers[j].swipes) && swipers[j].usersLikeSent == old(swipers[j].usersLikeSent)
    ensures forall j :: 0 <= j < |swipers| ==> swipers[j].usersLikeReceived == old(swipers[j].usersLikeReceived)
    ensures forall k :: 0 <= k < |pool| ==> pool[k].swipes == old(pool[k].swipes) && pool[k].usersLikeSent == old(pool[k].usersLikeSent)
    ensures Sum(MatchesOf(swipers)) - old(Sum(MatchesOf(swipers))) == Sum(MatchesOf(pool)) - old(Sum(MatchesOf(pool)))
    ensures Sum(LikesOf(pool)) == old(Sum(LikesOf(pool))) + Liked(draw, next, next')
    ensures Sum(LikesOf(swipers)) == old(Sum(LikesOf(swipers)))
  {
    var mate := swipers[i];
    assert mate in Members(swipers);
    OthersDiffer(swipers, i);
    ghost var likesBefore, before := LikesOf(swipers), MatchesOf(swipers);
    CountersOf(swipers);
    assert mate in world && WellFormed(mate);
    ghost var pulls, picks, lists';
    next', cursor', pulls, picks, lists' := SwiperTurn(mate, pool, draw, next, cursor, world, tr.lists[i]);
    tr' := TurnsExtend(swipers, pool, i, s0, draw, next0, tr, next, cursor, pulls, picks, mate.usersLikeSent, lists', next', cursor');
    assert mate in world && WellFormed(mate);
    forall j | 0 <= j < |swipers| && j != i
      ensures swipers[j].matches == before[j] && swipers[j].likes == likesBefore[j]
      ensures swipers[j].swipes == old(swipers[j].swipes)
      ensures swipers[j].usersLikeSent == old(swipers[j].usersLikeSent)
      ensures swipers[j].usersLikeReceived == old(swipers[j].usersLikeReceived)
    {
      assert swipers[j] != mate && swipers[j] in Members(swipers);
      assert swipers[j] !in pool;
    }
    forall k | 0 <= k < |pool|
      ensures pool[k].swipes == old(pool[k].swipes) && pool[k].usersLikeSent == old(pool[k].usersLikeSent)
    {
      assert pool[k] in pool;
    }
    CountersChangedAt(swipers, i, likesBefore, before);
  }

  /**
    The day's sort of the pool, with what it leaves alone spelled out: it
    reorders the pool array and changes no user.
   */
  method SortForDay(swipers: seq<User>, pool: array<User>, ghost world: set<User>)
    requires DayReady(swipers, pool[..], world)
    modifies pool
    ensures pool[..] == SortedBy(old(pool[..]), old(SwipeKey(pool[..])))
    ensures multiset(pool[..]) == multiset(old(pool[..])) && Members(pool[..]) == Members(old(pool[..]))
    ensures DayReady(swipers, pool[..], world)
    ensures Snap(swipers) == old(Snap(swipers))
    ensures forall u :: u in Members(old(pool[..])) ==> u.swipes == old(u.swipes) && u.usersLikeSent == old(u.usersLikeSent)
    ensures Stats(swipers) == old(Stats(swipers))
    ensures Stats(pool[..]) == old(Stats(pool[..]))
  {
    ghost var orig := pool[..];
    ghost var key := SwipeKey(orig);
    ghost var sorted := SortedBy(orig, key);
    SortedPermutes(orig, key);
    ReadyPermuted(swipers, orig, sorted, world);
    assert forall s :: s in swipers ==> s in world;
    SortPoolBySwipes(pool);
    assert unchanged(world);
  }

  /**
    One day for one direction (the source's `runDay`): the pool is sorted
    stably by ascending swipe count, then the swipers take their turns on
    the sorted pool, in order, with one shared cursor (`tr`, as in
    `SwipeRound`). Each member of the sorted pool ends with the received
    likes it had, followed by what the turns gave it, in turn order.
   */
  method RunDay(swipers: seq<User>, pool: array<User>, draw: nat -> bool, next: nat, ghost world: set<User>)
    returns (next': nat, ghost tr: Trace)
    requires DayReady(swipers, pool[..], world)
    modifies pool, Members(swipers), Members(pool[..])
    ensures pool[..] == SortedBy(old(pool[..]), old(SwipeKey(pool[..])))
    ensures multiset(pool[..]) == multiset(old(pool[..])) && Members(pool[..]) == Members(old(pool[..]))
    ensures Scheduled(swipers, pool[..], |swipers|, old(Snap(swipers)), draw, next, tr) && tr.nexts[|swipers|] == next'
    ensures Consistent(world)
    ensures next' == next + Budget(swipers, |swipers|)
    ensures forall s :: s in swipers ==>
      s.swipes == old(s.swipes) + s.profilesPerDay && s.usersLikeReceived == old(s.usersLikeReceived)
    ensures forall u :: u in Members(old(pool[..])) ==> u.swipes == old(u.swipes) && u.usersLikeSent == old(u.usersLikeSent)
    ensures Sum(MatchesOf(swipers)) - old(Sum(MatchesOf(swipers))) ==
            Sum(MatchesOf(pool[..])) - old(Sum(MatchesOf(pool[..])))
    ensures Sum(LikesOf(pool[..])) == old(Sum(LikesOf(pool[..]))) + Liked(draw, next, next')
    ensures Sum(LikesOf(swipers)) == old(Sum(LikesOf(swipers)))
    ensures RoundReceived(ReceivedLists(pool[..]), old(ReceivedLists(SortedBy(pool[..], SwipeKey(pool[..])))),
                          swipers, tr.picks, tr.nexts, draw, |swipers|)
  {
    SortForDay(swipers, pool, world);
    var sorted := pool[..];
    assert ReceivedLists(sorted) == old(ReceivedLists(SortedBy(pool[..], SwipeKey(pool[..]))));
    next', tr := SwipeRound(swipers, sorted, draw, next, world);
    assert pool[..] == sorted;
    forall s | s in swipers
      ensures s.swipes == old(s.swipes) + s.profilesPerDay && s.usersLikeReceived == old(s.usersLikeReceived)
    {
      var j :| 0 <= j < |swipers| && swipers[j] == s;
    }
    forall u | u in Members(old(pool[..]))
      ensures u.swipes == old(u.swipes) && u.usersLikeSent == old(u.usersLikeSent)
    {
      assert u in Members(sorted);
      var k :| 0 <= k < |sorted| && sorted[k] == u;
    }
  }
}
