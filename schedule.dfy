/**
  The rule by which a swiper chooses whom to swipe during `runDay`, stated
  on values: the swiper's like lists, the pool's ids, the draws and the
  shared cursor. The day's methods are proved to follow it exactly.
 */
module Schedule {
  import opened Users
  import opened Groups

  datatype Option<T> = None | Some(value: T)

  /** Position of the first pool member with this id (the source's `find`). */
  function FindById(pool: seq<User>, id: int): (r: Option<nat>)
    ensures r.Some? ==> r.value < |pool| && pool[r.value].id == id
    ensures r.Some? ==> forall k :: 0 <= k < r.value ==> pool[k].id != id
    ensures r.None? <==> forall k :: 0 <= k < |pool| ==> pool[k].id != id
  {
    if pool == [] then None
    else if pool[0].id == id then Some(0)
    else match FindById(pool[1..], id)
      case None => None
      case Some(k) => Some(k + 1)
  }

  /** The cursor's position in the pool, kept reduced modulo the pool size; 0 for an empty pool. */
  predicate CursorIn(cursor: nat, n: nat)
  {
    cursor < n || cursor == 0
  }

  /** The position after `p` in a round-robin walk over `n` positions. */
  function Advance(p: nat, n: nat): (r: nat)
    requires p < n
    ensures r < n
    ensures r == (p + 1) % n
  {
    if p + 1 == n then ModOf(p + 1, n, 1, 0); 0 else ModOf(p + 1, n, 0, p + 1); p + 1
  }

  /** The cursor after `pulls` round-robin advances from `c0` over `n` positions. */
  function Rotated(c0: nat, pulls: nat, n: nat): (r: nat)
    requires CursorIn(c0, n)
    ensures CursorIn(r, n)
  {
    if pulls == 0 || n == 0 then c0 else Advance(Rotated(c0, pulls - 1, n), n)
  }

  /** `pulls` advances from `c0` land on `c0 + pulls` modulo `n`, the source's `profileIdx % length`. */
  lemma {:induction false} RotatedMod(c0: nat, pulls: nat, n: nat)
    requires c0 < n
    ensures Rotated(c0, pulls, n) == (c0 + pulls) % n
  {
    if pulls == 0 {
      ModOf(c0, n, 0, c0);
    } else {
      RotatedMod(c0, pulls - 1, n);
      AdvanceMod(c0 + (pulls - 1), c0 + pulls, n);
    }
  }

  /** Advancing a position reduced modulo `n` is advancing the unreduced count `a` to `b`. */
  lemma AdvanceMod(a: nat, b: nat, n: nat)
    requires n > 0 && b == a + 1
    ensures Advance(a % n, n) == b % n
  {
    var q, r := a / n, a % n;
    assert a == q * n + r;
    if r + 1 < n {
      ModOf(b, n, q, r + 1);
    } else {
      assert b == (q + 1) * n + 0;
      ModOf(b, n, q + 1, 0);
    }
  }

  /** The remainder of `x` is `r` when `x` is `q` times `n` plus `r`, with `r` below `n`. */
  lemma ModOf(x: nat, n: nat, q: int, r: nat)
    requires n > 0 && r < n && x == q * n + r
    ensures x % n == r
  {
    var q', r' := x / n, x % n;
    assert x == q' * n + r';
    var d := q - q';
    assert d * n == r' - r;
    if d > 0 {
      MulAtLeast(d, n);
    } else if d < 0 {
      MulAtLeast(-d, n);
    }
  }

  lemma MulAtLeast(d: int, n: nat)
    requires d >= 1
    ensures d * n >= n
  {
    assert d * n == (d - 1) * n + n;
  }

  /** How many advances take the cursor from `from` to `to` in a walk over `n` positions. */
  function Gap(from: nat, to: nat, n: nat): nat
  {
    if from <= to then to - from else if from <= to + n then to + n - from else 0
  }

  /** Advancing past a position other than the goal brings the cursor closer to the goal. */
  lemma GapShrinks(from: nat, to: nat, n: nat)
    requires from < n && to < n && from != to
    ensures Gap(Advance(from, n), to, n) < Gap(from, to, n)
  {
  }

  /** The number of likes among the draws `lo`, ..., `hi - 1`. */
  function Liked(draw: nat -> bool, lo: nat, hi: nat): nat
    decreases hi
  {
    if hi <= lo then 0 else Liked(draw, lo, hi - 1) + (if draw(hi - 1) then 1 else 0)
  }

  /** Counting the likes of consecutive ranges of draws adds up. */
  lemma {:induction false} LikedSplit(draw: nat -> bool, lo: nat, mid: nat, hi: nat)
    requires lo <= mid <= hi
    ensures Liked(draw, lo, hi) == Liked(draw, lo, mid) + Liked(draw, mid, hi)
    decreases hi
  {
    if hi > mid {
      LikedSplit(draw, lo, mid, hi - 1);
    }
  }

  /** Draws that never like count no likes. */
  lemma {:induction false} LikedNone(draw: nat -> bool, lo: nat, hi: nat)
    requires forall n :: lo <= n < hi ==> !draw(n)
    ensures Liked(draw, lo, hi) == 0
    decreases hi
  {
    if hi > lo {
      LikedNone(draw, lo, hi - 1);
    }
  }

  /** What one swipe adds to the swiped member's received likes: the swiper's id on a like, nothing otherwise. */
  function Gained(liked: bool, id: int): seq<int>
  {
    if liked then [id] else []
  }

  /**
    The likes that pool position `k` receives from the swipes of the user
    with id `id` on the positions `picks`, in order, the last of them using
    draw `end - 1` and each earlier one the draw before its successor's:
    that id once for each swipe on `k` whose draw is a like, in swipe order
    (the `usersLikeReceived.push` of `swipe`). A swipe needs a draw, so
    swipes beyond draw 0 gain nothing.
   */
  function Gains(picks: seq<nat>, end: nat, draw: nat -> bool, k: nat, id: int): seq<int>
    decreases |picks|
  {
    if picks == [] || end == 0 then []
    else Gains(picks[..|picks| - 1], end - 1, draw, k, id) + (if picks[|picks| - 1] == k then Gained(draw(end - 1), id) else [])
  }

  /** One more swipe, on position `p` with draw `end`, gives at most one like, and only to `p`. */
  lemma GainsAppend(picks: seq<nat>, p: nat, end: nat, draw: nat -> bool, k: nat, id: int)
    ensures Gains(picks + [p], end + 1, draw, k, id) ==
            Gains(picks, end, draw, k, id) + (if p == k then Gained(draw(end), id) else [])
  {
    assert (picks + [p])[..|picks|] == picks;
  }

  /** Two runs of swipes, the second starting at the draw after the first, give their likes in order. */
  lemma {:induction false} GainsConcat(a: seq<nat>, b: seq<nat>, end: nat, draw: nat -> bool, k: nat, id: int)
    requires |b| <= end
    ensures Gains(a + b, end, draw, k, id) == Gains(a, end - |b|, draw, k, id) + Gains(b, end, draw, k, id)
    decreases |b|
  {
    if b == [] {
      assert a + b == a;
    } else {
      var b', p := b[..|b| - 1], b[|b| - 1];
      assert a + b == (a + b') + [p];
      assert b == b' + [p];
      GainsConcat(a, b', end - 1, draw, k, id);
      GainsAppend(a + b', p, end - 1, draw, k, id);
      GainsAppend(b', p, end - 1, draw, k, id);
    }
  }

  /**
    A position no swipe picked receives nothing; every like received names
    the swiper; and a position receives at most as many likes as the draws
    of those swipes hold.
   */
  lemma {:induction false} GainsBound(picks: seq<nat>, end: nat, draw: nat -> bool, k: nat, id: int)
    requires |picks| <= end
    ensures k !in picks ==> Gains(picks, end, draw, k, id) == []
    ensures forall x :: x in Gains(picks, end, draw, k, id) ==> x == id
    ensures |Gains(picks, end, draw, k, id)| <= Liked(draw, end - |picks|, end)
    decreases |picks|
  {
    if picks != [] {
      var init := picks[..|picks| - 1];
      assert forall x :: x in init ==> x in picks;
      GainsBound(init, end - 1, draw, k, id);
    }
  }

  /**
    `now` lists, position by position, the received likes of `before`
    followed by what the swipes `picks` of the user with id `id`, the last
    of them with draw `end - 1`, gave that position.
   */
  predicate GainedSince(now: seq<seq<int>>, before: seq<seq<int>>, picks: seq<nat>, end: nat, draw: nat -> bool, id: int)
  {
    && |now| == |before|
    && forall k :: 0 <= k < |now| ==> now[k] == before[k] + Gains(picks, end, draw, k, id)
  }

  /** Before any swipe, nothing was gained. */
  lemma GainedNothing(lists: seq<seq<int>>, end: nat, draw: nat -> bool, id: int)
    ensures GainedSince(lists, lists, [], end, draw, id)
  {
    forall k | 0 <= k < |lists|
      ensures lists[k] == lists[k] + Gains([], end, draw, k, id)
    {
      assert lists[k] + [] == lists[k];
    }
  }

  /** A swipe on position `p` with draw `end` appends the swiper's id to `p`'s list on a like. */
  lemma GainedStep(before: seq<seq<int>>, now: seq<seq<int>>, r0: seq<seq<int>>, picks: seq<nat>, p: nat,
                   end: nat, draw: nat -> bool, id: int)
    requires GainedSince(before, r0, picks, end, draw, id) && p < |before|
    requires now == before[p := before[p] + Gained(draw(end), id)]
    ensures GainedSince(now, r0, picks + [p], end + 1, draw, id)
  {
    forall k | 0 <= k < |now|
      ensures now[k] == r0[k] + Gains(picks + [p], end + 1, draw, k, id)
    {
      GainsAppend(picks, p, end, draw, k, id);
    }
  }

  /** Two runs of swipes by the same user, one after the other, gain what their concatenation gains. */
  lemma GainedCompose(r0: seq<seq<int>>, mid: seq<seq<int>>, now: seq<seq<int>>, a: seq<nat>, b: seq<nat>,
                      middle: nat, end: nat, draw: nat -> bool, id: int)
    requires GainedSince(mid, r0, a, middle, draw, id) && GainedSince(now, mid, b, end, draw, id)
    requires end == middle + |b|
    ensures GainedSince(now, r0, a + b, end, draw, id)
  {
    forall k | 0 <= k < |now|
      ensures now[k] == r0[k] + Gains(a + b, end, draw, k, id)
    {
      GainsConcat(a, b, end, draw, k, id);
    }
  }

  /**
    A swiper's progress through one phase of its turn: the swiper's id
    `me`, its sent likes, the budget it has spent, the index of its next
    draw, the pool positions it swiped in this phase, in order, and the
    pool's received likes, position by position.
   */
  datatype Progress = Progress(me: int, sent: seq<int>, swiped: nat, next: nat, picks: seq<nat>, lists: seq<seq<int>>)

  /**
    One swipe on pool position `p`, holding id `id`: one unit of budget and
    one draw, a like exactly when the draw says so, and on a like the
    swiper's id is appended to the received likes of position `p`.
   */
  function SwipeAt(s: Progress, p: nat, id: int, draw: nat -> bool): Progress
  {
    Progress(s.me, s.sent + (if draw(s.next) then [id] else []), s.swiped + 1, s.next + 1, s.picks + [p],
             if p < |s.lists| then s.lists[p := s.lists[p] + Gained(draw(s.next), s.me)] else s.lists)
  }

  /**
    The pool's received likes in `r` are those of `start` followed by what
    the swipes `r.picks` of the swiper gave each position (`start` swiped
    nothing yet).
   */
  ghost predicate GainedFrom(start: Progress, r: Progress, draw: nat -> bool)
  {
    && start.picks == [] && r.me == start.me
    && GainedSince(r.lists, start.lists, r.picks, r.next, draw, start.me)
  }

  /** A swipe keeps the account of received likes. */
  lemma GainedSwipe(start: Progress, s: Progress, p: nat, id: int, draw: nat -> bool)
    requires GainedFrom(start, s, draw)
    ensures GainedFrom(start, SwipeAt(s, p, id, draw), draw)
  {
    var r := SwipeAt(s, p, id, draw);
    if p < |s.lists| {
      GainedStep(s.lists, r.lists, start.lists, s.picks, p, s.next, draw, s.me);
    } else {
      forall k | 0 <= k < |r.lists|
        ensures r.lists[k] == start.lists[k] + Gains(r.picks, r.next, draw, k, s.me)
      {
        GainsAppend(s.picks, p, s.next, draw, k, s.me);
      }
    }
  }

  /**
    The liked-you phase meets the received id `id`: once `budget` swipes
    are spent the id is passed over; otherwise it is swiped when some pool
    member has it and the swiper is not matched with it by the sent likes
    of that moment.
   */
  function PriorityStep(received: seq<int>, pool: seq<User>, budget: nat, draw: nat -> bool, s: Progress, id: int): Progress
  {
    if s.swiped >= budget then s
    else match FindById(pool, id)
      case None => s
      case Some(p) => if id in s.sent && id in received then s else SwipeAt(s, p, id, draw)
  }

  /** The liked-you phase after the first `idx` ids of `received`, in order. */
  function PriorityAfter(received: seq<int>, pool: seq<User>, budget: nat, draw: nat -> bool,
                         start: Progress, idx: nat): Progress
    requires idx <= |received|
  {
    if idx == 0 then start
    else PriorityStep(received, pool, budget, draw, PriorityAfter(received, pool, budget, draw, start, idx - 1), received[idx - 1])
  }

  /**
    One pull of the fill phase from progress `s` at cursor `c`: the cursor
    advances round-robin; a pulled member the swiper is matched with (by the
    sent likes of that moment) is passed over without spending budget, any
    other is swiped; once `budget` swipes are spent nothing is pulled.
   */
  function FillStep(received: seq<int>, pool: seq<User>, budget: nat, draw: nat -> bool,
                    s: Progress, c: nat): (r: (Progress, nat))
    requires CursorIn(c, |pool|)
    ensures CursorIn(r.1, |pool|)
  {
    if s.swiped >= budget || |pool| == 0 then (s, c)
    else
      var id := pool[c].id;
      var c' := Advance(c, |pool|);
      if id in s.sent && id in received then (s, c') else (SwipeAt(s, c, id, draw), c')
  }

  /** The fill phase after `pulls` pulls from `cursor`. */
  function FillAfter(received: seq<int>, pool: seq<User>, budget: nat, draw: nat -> bool,
                     start: Progress, cursor: nat, pulls: nat): (r: (Progress, nat))
    requires CursorIn(cursor, |pool|)
    ensures CursorIn(r.1, |pool|)
  {
    if pulls == 0 then (start, cursor)
    else
      var (s, c) := FillAfter(received, pool, budget, draw, start, cursor, pulls - 1);
      FillStep(received, pool, budget, draw, s, c)
  }

  /**
    `plan` lists the fill phase's progress and cursor after each number of
    pulls so far. As with `PriorityPlan`, the link is triggered only by a
    `FillAfter` term.
   */
  ghost predicate FillPlan(received: seq<int>, pool: seq<User>, budget: nat, draw: nat -> bool,
                           start: Progress, cursor: nat, plan: seq<(Progress, nat)>)
    requires CursorIn(cursor, |pool|)
  {
    && |plan| > 0
    && forall k {:trigger FillAfter(received, pool, budget, draw, start, cursor, k)} :: 0 <= k < |plan| ==>
         plan[k] == FillAfter(received, pool, budget, draw, start, cursor, k)
  }

  /** The plan of a fill phase that took `pulls` pulls. */
  lemma PlanFill(received: seq<int>, pool: seq<User>, budget: nat, draw: nat -> bool, start: Progress, cursor: nat,
                 pulls: nat)
    returns (plan: seq<(Progress, nat)>)
    requires CursorIn(cursor, |pool|)
    ensures FillPlan(received, pool, budget, draw, start, cursor, plan) && |plan| == pulls + 1
  {
    plan := seq(pulls + 1, k requires 0 <= k <= pulls => FillAfter(received, pool, budget, draw, start, cursor, k));
  }

  /** Each pool position receives, over the liked-you phase, the swiper's id once per like drawn on it, in order. */
  lemma {:induction false} PriorityGained(received: seq<int>, pool: seq<User>, budget: nat, draw: nat -> bool,
                                          start: Progress, idx: nat)
    requires idx <= |received| && start.picks == []
    ensures GainedFrom(start, PriorityAfter(received, pool, budget, draw, start, idx), draw)
  {
    if idx == 0 {
      GainedNothing(start.lists, start.next, draw, start.me);
    } else {
      PriorityGained(received, pool, budget, draw, start, idx - 1);
      var s := PriorityAfter(received, pool, budget, draw, start, idx - 1);
      var id := received[idx - 1];
      if s.swiped < budget {
        match FindById(pool, id)
        case None =>
        case Some(p) =>
          if !(id in s.sent && id in received) {
            GainedSwipe(start, s, p, id, draw);
          }
      }
    }
  }

  /** Each pool position receives, over the fill phase, the swiper's id once per like drawn on it, in order. */
  lemma {:induction false} FillGained(received: seq<int>, pool: seq<User>, budget: nat, draw: nat -> bool,
                                      start: Progress, cursor: nat, pulls: nat)
    requires CursorIn(cursor, |pool|) && start.picks == []
    ensures GainedFrom(start, FillAfter(received, pool, budget, draw, start, cursor, pulls).0, draw)
  {
    if pulls == 0 {
      GainedNothing(start.lists, start.next, draw, start.me);
    } else {
      FillGained(received, pool, budget, draw, start, cursor, pulls - 1);
      var (s, c) := FillAfter(received, pool, budget, draw, start, cursor, pulls - 1);
      if s.swiped < budget && |pool| > 0 && !(pool[c].id in s.sent && pool[c].id in received) {
        GainedSwipe(start, s, c, pool[c].id, draw);
      }
    }
  }

  /** A whole turn: both phases and the cursor the fill phase leaves behind. */
  datatype Turn = Turn(priority: Progress, fill: Progress, cursor: nat)

  /**
    The turn of the swiper with id `me` and like lists `sent` and
    `received`, on a pool whose received likes are `lists`: the liked-you
    phase over the whole received list from draw `next`, then `pulls` pulls
    of the fill phase from `cursor`, continuing the budget, the draws and
    the pool's received likes where the first phase stopped.
   */
  function TurnAfter(me: int, sent: seq<int>, received: seq<int>, lists: seq<seq<int>>, pool: seq<User>, budget: nat,
                     draw: nat -> bool, next: nat, cursor: nat, pulls: nat): Turn
    requires CursorIn(cursor, |pool|)
  {
    var p := PriorityAfter(received, pool, budget, draw, Progress(me, sent, 0, next, [], lists), |received|);
    var (f, c) := FillAfter(received, pool, budget, draw, Progress(me, p.sent, p.swiped, p.next, [], p.lists), cursor, pulls);
    Turn(p, f, c)
  }

  /**
    The swiper with id `me` and like lists `sent` and `received` took its
    whole turn from draw `next` and cursor `cursor`, on a pool whose
    received likes were `lists`: after `pulls` pulls the budget is spent
    exactly, the turn swiped the pool positions `picks` in order (the
    liked-you ones first), and it left the sent likes `sent'`, the pool's
    received likes `lists'`, the next draw `next'` and the cursor
    `cursor'`, which is `pulls` positions on from `cursor`.
   */
  ghost predicate TurnTaken(me: int, sent: seq<int>, received: seq<int>, lists: seq<seq<int>>, pool: seq<User>,
                            budget: nat, draw: nat -> bool, next: nat, cursor: nat, pulls: nat, picks: seq<nat>,
                            sent': seq<int>, lists': seq<seq<int>>, next': nat, cursor': nat)
  {
    && CursorIn(cursor, |pool|)
    && var t := TurnAfter(me, sent, received, lists, pool, budget, draw, next, cursor, pulls);
    && t.fill.swiped == budget && t.fill.sent == sent' && t.fill.lists == lists' && t.fill.next == next' && t.cursor == cursor'
    && t.priority.picks + t.fill.picks == picks
    && (|pool| > 0 ==> cursor' == (cursor + pulls) % |pool|)
  }

  /**
    What any part of a turn keeps: budget only grows, each unit spent is
    one draw and one new pick of a pool position, and the sent likes grow
    by one id per like among the draws used, after the old ones.
   */
  ghost predicate Accounted(start: Progress, r: Progress, draw: nat -> bool, n: nat)
  {
    && start.swiped <= r.swiped
    && r.next == start.next + (r.swiped - start.swiped)
    && |r.picks| == |start.picks| + (r.swiped - start.swiped)
    && start.picks <= r.picks
    && (forall j :: |start.picks| <= j < |r.picks| ==> r.picks[j] < n)
    && start.sent <= r.sent
    && |r.sent| == |start.sent| + Liked(draw, start.next, r.next)
    && r.me == start.me && |r.lists| == |start.lists|
  }

  lemma AccountedSwipe(start: Progress, s: Progress, p: nat, id: int, draw: nat -> bool, n: nat)
    requires Accounted(start, s, draw, n) && p < n
    ensures Accounted(start, SwipeAt(s, p, id, draw), draw, n)
  {
    var r := SwipeAt(s, p, id, draw);
    assert start.picks <= r.picks by {
      assert r.picks[..|s.picks|] == s.picks;
    }
    assert start.sent <= r.sent by {
      assert r.sent[..|s.sent|] == s.sent;
    }
  }

  /**
    The liked-you phase spends at most its budget and at most one swipe per
    received like, swipes only pool members whose id liked the swiper, and
    keeps the accounting of draws and likes.
   */
  lemma {:induction false} PriorityAccounted(received: seq<int>, pool: seq<User>, budget: nat, draw: nat -> bool,
                                             start: Progress, idx: nat)
    requires idx <= |received| && start.swiped <= budget
    ensures var r := PriorityAfter(received, pool, budget, draw, start, idx);
      && Accounted(start, r, draw, |pool|)
      && r.swiped <= budget && r.swiped - start.swiped <= idx
      && forall j :: |start.picks| <= j < |r.picks| ==> pool[r.picks[j]].id in received
  {
    if idx > 0 {
      PriorityAccounted(received, pool, budget, draw, start, idx - 1);
      var s := PriorityAfter(received, pool, budget, draw, start, idx - 1);
      var id := received[idx - 1];
      if s.swiped < budget {
        match FindById(pool, id)
        case None =>
        case Some(p) =>
          if !(id in s.sent && id in received) {
            AccountedSwipe(start, s, p, id, draw, |pool|);
          }
      }
    }
  }

  /**
    `plan` lists the liked-you phase's progress after each prefix of the
    received ids, from none to all of them. The link is triggered only by a
    `PriorityAfter` term, so a caller that never names one sees `plan` as
    plain values.
   */
  ghost predicate PriorityPlan(received: seq<int>, pool: seq<User>, budget: nat, draw: nat -> bool,
                               start: Progress, plan: seq<Progress>)
  {
    && |plan| == |received| + 1
    && forall k {:trigger PriorityAfter(received, pool, budget, draw, start, k)} :: 0 <= k <= |received| ==>
         plan[k] == PriorityAfter(received, pool, budget, draw, start, k)
  }

  /** The plan of a liked-you phase exists. */
  lemma PlanPriority(received: seq<int>, pool: seq<User>, budget: nat, draw: nat -> bool, start: Progress)
    returns (plan: seq<Progress>)
    ensures PriorityPlan(received, pool, budget, draw, start, plan)
    ensures plan[0] == start
  {
    plan := seq(|received| + 1, k requires 0 <= k <= |received| => PriorityAfter(received, pool, budget, draw, start, k));
    assert plan[0] == PriorityAfter(received, pool, budget, draw, start, 0);
  }

  /** Consecutive entries of a plan are one liked-you step apart. */
  lemma PlanStep(received: seq<int>, pool: seq<User>, budget: nat, draw: nat -> bool,
                 start: Progress, plan: seq<Progress>, idx: nat)
    requires PriorityPlan(received, pool, budget, draw, start, plan) && idx < |received|
    ensures plan[idx + 1] == PriorityStep(received, pool, budget, draw, plan[idx], received[idx])
  {
    assert plan[idx] == PriorityAfter(received, pool, budget, draw, start, idx);
    assert plan[idx + 1] == PriorityAfter(received, pool, budget, draw, start, idx + 1);
  }

  /** Once a plan's budget is spent, its last entry is the one at which that happened. */
  lemma PlanStops(received: seq<int>, pool: seq<User>, budget: nat, draw: nat -> bool,
                  start: Progress, plan: seq<Progress>, idx: nat)
    requires PriorityPlan(received, pool, budget, draw, start, plan) && idx <= |received|
    requires plan[idx].swiped >= budget
    ensures plan[|received|] == plan[idx]
  {
    assert plan[idx] == PriorityAfter(received, pool, budget, draw, start, idx);
    PriorityStops(received, pool, budget, draw, start, idx, |received|);
  }

  /** Once the budget is spent, the rest of the received list changes nothing (the source's `break`). */
  lemma {:induction false} PriorityStops(received: seq<int>, pool: seq<User>, budget: nat, draw: nat -> bool,
                                         start: Progress, idx: nat, later: nat)
    requires idx <= later <= |received|
    requires PriorityAfter(received, pool, budget, draw, start, idx).swiped >= budget
    ensures PriorityAfter(received, pool, budget, draw, start, later) == PriorityAfter(received, pool, budget, draw, start, idx)
    decreases later
  {
    if later > idx {
      PriorityStops(received, pool, budget, draw, start, idx, later - 1);
    }
  }

  /** The fill phase spends at most its budget and at most one swipe per pull, and keeps the accounting. */
  lemma {:induction false} FillAccounted(received: seq<int>, pool: seq<User>, budget: nat, draw: nat -> bool,
                                         start: Progress, cursor: nat, pulls: nat)
    requires CursorIn(cursor, |pool|) && start.swiped <= budget
    ensures var r := FillAfter(received, pool, budget, draw, start, cursor, pulls).0;
      Accounted(start, r, draw, |pool|) && r.swiped <= budget && r.swiped - start.swiped <= pulls
  {
    if pulls > 0 {
      FillAccounted(received, pool, budget, draw, start, cursor, pulls - 1);
      var (s, c) := FillAfter(received, pool, budget, draw, start, cursor, pulls - 1);
      if s.swiped < budget && |pool| > 0 {
        AccountedSwipe(start, s, c, pool[c].id, draw, |pool|);
      }
    }
  }

  /** Pulls after the budget is spent change nothing: the outcome of a turn does not depend on spare pulls. */
  lemma {:induction false} FillSettled(received: seq<int>, pool: seq<User>, budget: nat, draw: nat -> bool,
                                       start: Progress, cursor: nat, pulls: nat, more: nat)
    requires CursorIn(cursor, |pool|) && pulls <= more
    requires FillAfter(received, pool, budget, draw, start, cursor, pulls).0.swiped >= budget
    ensures FillAfter(received, pool, budget, draw, start, cursor, more) ==
            FillAfter(received, pool, budget, draw, start, cursor, pulls)
    decreases more
  {
    if more > pulls {
      FillSettled(received, pool, budget, draw, start, cursor, pulls, more - 1);
    }
  }

  /**
    A completed turn spends exactly the budget: that many draws, that many
    picks of pool positions over both phases (the liked-you picks all ids
    that liked the swiper), and one new sent like, after the old ones, per
    like among the turn's draws.
   */
  lemma TurnAccounted(me: int, sent: seq<int>, received: seq<int>, lists: seq<seq<int>>, pool: seq<User>, budget: nat,
                      draw: nat -> bool, next: nat, cursor: nat, pulls: nat, picks: seq<nat>,
                      sent': seq<int>, lists': seq<seq<int>>, next': nat, cursor': nat)
    requires TurnTaken(me, sent, received, lists, pool, budget, draw, next, cursor, pulls, picks, sent', lists', next', cursor')
    ensures next' == next + budget && |picks| == budget
    ensures sent <= sent' && |sent'| == |sent| + Liked(draw, next, next')
    ensures |lists'| == |lists|
    ensures var t := TurnAfter(me, sent, received, lists, pool, budget, draw, next, cursor, pulls);
      && |t.priority.picks| + |t.fill.picks| == budget
      && (forall j :: 0 <= j < |t.priority.picks| ==> t.priority.picks[j] < |pool| && pool[t.priority.picks[j]].id in received)
      && (forall j :: 0 <= j < |t.fill.picks| ==> t.fill.picks[j] < |pool|)
  {
    var start := Progress(me, sent, 0, next, [], lists);
    var p := PriorityAfter(received, pool, budget, draw, start, |received|);
    PriorityAccounted(received, pool, budget, draw, start, |received|);
    var mid := Progress(me, p.sent, p.swiped, p.next, [], p.lists);
    FillAccounted(received, pool, budget, draw, mid, cursor, pulls);
    LikedSplit(draw, next, p.next, next');
  }

  /**
    Over a whole turn each pool position receives the swiper's id once per
    like drawn on it, in swipe order: the liked-you swipes' likes first,
    then the fill phase's.
   */
  lemma TurnGained(me: int, sent: seq<int>, received: seq<int>, lists: seq<seq<int>>, pool: seq<User>, budget: nat,
                   draw: nat -> bool, next: nat, cursor: nat, pulls: nat, picks: seq<nat>,
                   sent': seq<int>, lists': seq<seq<int>>, next': nat, cursor': nat)
    requires TurnTaken(me, sent, received, lists, pool, budget, draw, next, cursor, pulls, picks, sent', lists', next', cursor')
    ensures GainedSince(lists', lists, picks, next', draw, me)
  {
    var start := Progress(me, sent, 0, next, [], lists);
    var p := PriorityAfter(received, pool, budget, draw, start, |received|);
    PriorityAccounted(received, pool, budget, draw, start, |received|);
    PriorityGained(received, pool, budget, draw, start, |received|);
    var mid := Progress(me, p.sent, p.swiped, p.next, [], p.lists);
    var f := FillAfter(received, pool, budget, draw, mid, cursor, pulls).0;
    FillAccounted(received, pool, budget, draw, mid, cursor, pulls);
    FillGained(received, pool, budget, draw, mid, cursor, pulls);
    GainedCompose(lists, p.lists, lists', p.picks, f.picks, p.next, next', draw, me);
  }

  /**
    A round of turns so far: the cursor, the next draw and the pool's
    received likes before each turn and after the last, the pulls of each
    turn's fill phase, the sent likes each turn left and the pool positions
    each turn swiped.
   */
  datatype Trace = Trace(cursors: seq<nat>, nexts: seq<nat>, pulls: seq<nat>, sents: seq<seq<int>>, picks: seq<seq<nat>>,
                         lists: seq<seq<seq<int>>>)

  /**
    The first `i` swipers took their turns in order on `pool`, swiper `j`
    from the like lists of `s0[j]` and with its own daily budget: the first
    turn starts at cursor 0 and draw `next0`, and every later turn at the
    cursor, the draw and the pool's received likes where the turn before
    it stopped.
   */
  ghost predicate TurnsTaken(swipers: seq<User>, pool: seq<User>, i: nat, s0: seq<Counts>,
                             draw: nat -> bool, next0: nat, tr: Trace)
  {
    && i <= |swipers| == |s0|
    && |tr.cursors| == i + 1 && |tr.nexts| == i + 1 && |tr.pulls| == i && |tr.sents| == i && |tr.picks| == i
    && |tr.lists| == i + 1
    && tr.cursors[0] == 0 && tr.nexts[0] == next0
    && forall j {:trigger TurnTaken(swipers[j].id, s0[j].sent, s0[j].received, tr.lists[j], pool, swipers[j].profilesPerDay,
                                    draw, tr.nexts[j], tr.cursors[j], tr.pulls[j], tr.picks[j], tr.sents[j], tr.lists[j + 1],
                                    tr.nexts[j + 1], tr.cursors[j + 1])} ::
         0 <= j < i ==>
         TurnTaken(swipers[j].id, s0[j].sent, s0[j].received, tr.lists[j], pool, swipers[j].profilesPerDay, draw,
                   tr.nexts[j], tr.cursors[j], tr.pulls[j], tr.picks[j], tr.sents[j], tr.lists[j + 1],
                   tr.nexts[j + 1], tr.cursors[j + 1])
  }

  /** A turn taken from where the round stands extends the round by that turn. */
  lemma TurnsExtend(swipers: seq<User>, pool: seq<User>, i: nat, s0: seq<Counts>, draw: nat -> bool, next0: nat,
                    tr: Trace, next: nat, cursor: nat, pulls: nat, picks: seq<nat>, sent': seq<int>, lists': seq<seq<int>>,
                    next': nat, cursor': nat)
    returns (tr': Trace)
    requires TurnsTaken(swipers, pool, i, s0, draw, next0, tr) && i < |swipers|
    requires tr.nexts[i] == next && tr.cursors[i] == cursor
    requires TurnTaken(swipers[i].id, s0[i].sent, s0[i].received, tr.lists[i], pool, swipers[i].profilesPerDay, draw,
                       next, cursor, pulls, picks, sent', lists', next', cursor')
    ensures TurnsTaken(swipers, pool, i + 1, s0, draw, next0, tr')
    ensures tr'.cursors[i + 1] == cursor' && tr'.nexts[i + 1] == next' && tr'.lists[i + 1] == lists'
    ensures tr'.lists[0] == tr.lists[0] && tr'.sents == tr.sents + [sent']
  {
    tr' := Trace(tr.cursors + [cursor'], tr.nexts + [next'], tr.pulls + [pulls], tr.sents + [sent'], tr.picks + [picks],
                     tr.lists + [lists']);
    forall j | 0 <= j < i + 1
      ensures TurnTaken(swipers[j].id, s0[j].sent, s0[j].received, tr'.lists[j], pool, swipers[j].profilesPerDay, draw,
                        tr'.nexts[j], tr'.cursors[j], tr'.pulls[j], tr'.picks[j], tr'.sents[j], tr'.lists[j + 1],
                        tr'.nexts[j + 1], tr'.cursors[j + 1])
    {
      assert tr'.nexts[j] == tr.nexts[j] && tr'.cursors[j] == tr.cursors[j] && tr'.lists[j] == tr.lists[j];
      if j < i {
        assert tr'.pulls[j] == tr.pulls[j] && tr'.sents[j] == tr.sents[j] && tr'.picks[j] == tr.picks[j];
        assert tr'.nexts[j + 1] == tr.nexts[j + 1] && tr'.cursors[j + 1] == tr.cursors[j + 1];
        assert tr'.lists[j + 1] == tr.lists[j + 1];
      }
    }
  }

  /**
    What pool position `k` received over the first `i` turns of a round:
    the likes of turn `j`, by `swipers[j]` on the positions `picks[j]` up
    to draw `nexts[j + 1]`, where the next turn starts, in turn order.
   */
  function RoundGains(swipers: seq<User>, picks: seq<seq<nat>>, nexts: seq<nat>, draw: nat -> bool, i: nat, k: nat): seq<int>
    requires i <= |swipers| && i <= |picks| && i < |nexts|
  {
    if i == 0 then []
    else RoundGains(swipers, picks, nexts, draw, i - 1, k) + Gains(picks[i - 1], nexts[i], draw, k, swipers[i - 1].id)
  }

  /**
    `now` lists, position by position, the received likes of `before`
    followed by what the first `i` turns of the round gave that position.
   */
  predicate RoundReceived(now: seq<seq<int>>, before: seq<seq<int>>, swipers: seq<User>, picks: seq<seq<nat>>,
                          nexts: seq<nat>, draw: nat -> bool, i: nat)
  {
    && i <= |swipers| && i <= |picks| && i < |nexts| && |now| == |before|
    && forall k :: 0 <= k < |now| ==> now[k] == before[k] + RoundGains(swipers, picks, nexts, draw, i, k)
  }

  /**
    Over the first `j` turns of a round, each pool position receives the
    likes of every turn in turn order, each turn's in swipe order.
   */
  lemma {:induction false} RoundUpTo(swipers: seq<User>, pool: seq<User>, i: nat, s0: seq<Counts>, draw: nat -> bool,
                                     next0: nat, tr: Trace, j: nat)
    requires TurnsTaken(swipers, pool, i, s0, draw, next0, tr) && j <= i
    ensures RoundReceived(tr.lists[j], tr.lists[0], swipers, tr.picks, tr.nexts, draw, j)
  {
    if j == 0 {
      forall k | 0 <= k < |tr.lists[0]|
        ensures tr.lists[0][k] == tr.lists[0][k] + RoundGains(swipers, tr.picks, tr.nexts, draw, 0, k)
      {
        assert tr.lists[0][k] + [] == tr.lists[0][k];
      }
    } else {
      RoundUpTo(swipers, pool, i, s0, draw, next0, tr, j - 1);
      var u := j - 1;
      TurnAccounted(swipers[u].id, s0[u].sent, s0[u].received, tr.lists[u], pool, swipers[u].profilesPerDay, draw,
                    tr.nexts[u], tr.cursors[u], tr.pulls[u], tr.picks[u], tr.sents[u], tr.lists[u + 1], tr.nexts[u + 1],
                    tr.cursors[u + 1]);
      TurnGained(swipers[u].id, s0[u].sent, s0[u].received, tr.lists[u], pool, swipers[u].profilesPerDay, draw,
                 tr.nexts[u], tr.cursors[u], tr.pulls[u], tr.picks[u], tr.sents[u], tr.lists[u + 1], tr.nexts[u + 1],
                    tr.cursors[u + 1]);
      forall k | 0 <= k < |tr.lists[j]|
        ensures tr.lists[j][k] == tr.lists[0][k] + RoundGains(swipers, tr.picks, tr.nexts, draw, j, k)
      {
        var earlier := RoundGains(swipers, tr.picks, tr.nexts, draw, u, k);
        var gains := Gains(tr.picks[u], tr.nexts[j], draw, k, swipers[u].id);
        assert tr.lists[j][k] == (tr.lists[0][k] + earlier) + gains;
        assert (tr.lists[0][k] + earlier) + gains == tr.lists[0][k] + (earlier + gains);
      }
    }
  }
}
