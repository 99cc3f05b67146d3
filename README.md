# monte-matching-carlo: a verified model of the matching simulation

The program simulates a dating app. Each day every user of one population
("the ones swiping") spends a fixed budget of swipes on the other population
("the available mates"), and then the two populations swap roles. A swipe
may be a like. A like that is returned is a match. At the end the program
reports, per population, the likes received and the matches.

This project models the core of `src/index.ts` in Dafny:

- `users.dfy` (module `Users`): the `User` class with its mutable counters
  and its append-only lists of sent and received like ids. It has:
  - `Swipe`, the single state transition;
  - `AlreadyMatched`;
  - the population invariant `Consistent`: ids are unique, every like is
    recorded on both sides, and each user's counters agree with its lists.
    In particular `matches` is the number of distinct ids the user is
    mutually matched with.
- `sorting.dfy` (module `Sorting`): the day's pool sort.
  - It runs as an in-place insertion sort on the pool array.
  - It is proved to compute `SortedBy`, a reference stable sort.
  - `SortedBy` is proved to give a permutation, in ascending order, that is
    stable.
- `stats.dfy` (module `Statistics`): the integer totals that `stats` folds
  before it divides.
- `groups.dfy` (module `Groups`): sets of users, duplicate-freedom, the
  "enough unmatched candidates" measure that keeps the fill phase finite,
  and the state of a round of turns.
- `schedule.dfy` (module `Schedule`): the rule by which a swiper picks whom
  to swipe, stated on values:
  - `PriorityStep` and `PriorityAfter`: the "liked you" phase, one received
    id at a time;
  - `FillStep` and `FillAfter`: the round-robin fill phase, one pull at a
    time, from a cursor;
  - `TurnAfter` and `TurnTaken`: a whole turn, both phases in that order;
  - `TurnsTaken`: a round of turns, where each turn starts at the cursor
    and the draw where the previous one stopped, and the first at cursor 0.
- `day.dfy` (module `Day`): `runDay`. It has:
  - the sort;
  - the priority phase and the fill phase, as loops over the `User`
    objects, proved to follow `PriorityAfter` and `FillAfter` exactly;
  - a swiper's turn and the round over all swipers, proved to follow
    `TurnTaken` and `TurnsTaken`, with one cursor shared by all swipers;
  - the budget, like and match accounting that ties them together.
- `simulation.dfy` (module `Simulation`): `simulate`. It creates the two
  populations with consecutive ids and runs the day loop in either order.

`Math.random()` becomes an injected outcome. `Swipe` takes the draw as a
boolean `liked`. `Simulate` takes an oracle `draw: nat -> bool`, and the
n-th swipe of the whole simulation uses `draw(n)`. The phases, the turns
and `RunDay` take the same oracle and a draw counter `next`. A swipe uses
`draw(next)` and moves `next` on by one (`Schedule.SwipeAt`, which the
phases follow). A turn uses exactly `profilesPerDay` draws
(`Schedule.TurnAccounted`). The day loop starts its counter at 0, so a
simulation uses the draws `0 .. TotalSwipes - 1`. Each day, the
population that swipes first uses the day's first draws, and the other
population receives their likes. `BoysLikes` and `GirlsLikes` follow this
order day by day, and `Simulation.Simulate` states that each population's
like total is exactly its own count.

## Model

| member | source | states |
|---|---|---|
| Users.User.constructor | src/index.ts:24-44 | a new user has the given id, gender and daily budget, zero counters and empty id lists |
| Users.User.Swipe | src/index.ts:46-60 | the swipe count rises by exactly one whatever the draw; without a like nothing else changes; with a like the target's likes rise by one, the swiper's id is appended to the target's received list and the target's id to the swiper's sent list; both match counters rise by one exactly when the like happened and the target had already liked the swiper |
| Users.MatchedIffMutual | src/index.ts:62-66 | `alreadyMatched` holds exactly when each side has liked the other, and it is symmetric |
| Users.SwipeUnmatched | src/index.ts:46-60 | a swipe between two unmatched users of a consistent population keeps it consistent, so a pair's match is counted exactly once and on both sides |
| Users.FreshConsistent | src/index.ts:108-121 | newly created users with distinct ids form a consistent population |
| Sorting.SortedPermutes | src/index.ts:144 | the pool sort yields the same users with the same multiplicities |
| Sorting.SortedIsAscending | src/index.ts:144 | the sorted pool is in non-decreasing order of swipe count, as the comparator `a - b` asks |
| Sorting.SortedIsStable | src/index.ts:144 | users with equal swipe counts keep their previous relative order |
| Sorting.InsertInPlace | src/index.ts:144 | one step of the in-place sort inserts the next element into the sorted prefix and leaves the rest of the array alone |
| Sorting.SortPoolBySwipes | src/index.ts:144 | the pool array is rearranged in place into the stable ascending sort of its contents, keyed by the swipe counts at the start of the call |
| Statistics.StatsPermutation | src/index.ts:75-83 | the likes and matches totals do not depend on the order of the population, which the daily sort changes |
| Statistics.StatsRemove | src/index.ts:75-83 | each user contributes exactly its own likes and matches to the totals |
| Schedule.FindById | src/index.ts:155 | the result is the first pool position holding that id, and it is absent exactly when no pool member has the id |
| Schedule.Advance | src/index.ts:167-168 | the cursor's next position is the old one plus one, modulo the pool size |
| Schedule.RotatedMod | src/index.ts:166-168 | after `pulls` advances from a reduced cursor `c0`, the cursor is `(c0 + pulls) % length`, the position the source's growing `profileIdx` reaches |
| Schedule.GapShrinks | src/index.ts:166-176 | skipping an already-matched candidate brings the cursor strictly closer to an unmatched one, so the skip loop ends |
| Schedule.PriorityAccounted | src/index.ts:150-163 | the liked-you phase spends at most the budget and at most one swipe per received id; it swipes only pool members whose id liked the swiper; each swipe is one draw and one pick, and the sent likes grow, after the old ones, by one id per like drawn |
| Schedule.PriorityStops | src/index.ts:152-154 | once the budget is spent, the rest of the received ids change nothing (the `break`) |
| Schedule.FillAccounted | src/index.ts:166-176 | the fill phase spends at most the budget and at most one swipe per pull, with the same draw and like accounting |
| Schedule.FillSettled | src/index.ts:166 | pulls after the budget is spent change nothing, so a turn's outcome does not depend on spare pulls |
| Schedule.TurnAccounted | src/index.ts:146-176 | a finished turn uses exactly `profilesPerDay` draws and picks, the liked-you picks are all pool members that liked the swiper, and the swiper's sent likes grow, after the old ones, by exactly the number of likes among the turn's draws |
| Schedule.TurnsExtend | src/index.ts:146-177 | a turn that starts at the cursor and the draw where the round stands extends the round's schedule by that turn |
| Schedule.GainsConcat | src/index.ts:54 | two runs of swipes by the same user, the second starting at the draw after the first, give each pool position the likes of the first run followed by those of the second |
| Schedule.GainsBound | src/index.ts:53-54 | a pool position that no swipe picked receives nothing, every like it receives carries the swiper's id, and it receives at most one like per like drawn |
| Schedule.PriorityGained | src/index.ts:150-163 | over the liked-you phase each pool position receives the swiper's id once per like drawn on it, in swipe order, and nothing else |
| Schedule.FillGained | src/index.ts:166-176 | over the fill phase each pool position receives the swiper's id once per like drawn on it, in swipe order, and nothing else |
| Schedule.TurnGained | src/index.ts:146-176 | over a whole turn each pool position receives the swiper's id once per like drawn on it: the liked-you swipes' likes first, then the fill phase's |
| Schedule.RoundUpTo | src/index.ts:146-177 | after the first `j` turns of a round each pool position holds its received likes from before the round followed by the likes of each turn, in turn order |
| Day.PriorityPhase | src/index.ts:149-163 | the liked-you loop ends exactly where `PriorityAfter` over all received ids does (same sent likes, budget spent, draws used and positions swiped, in order); each pool member's received list grows by the swiper's id once per like drawn on it, in swipe order, and no other way; the population stays consistent, the pool gains one like per like drawn and the swiper as many new matches as the pool |
| Day.VisitLiker | src/index.ts:151-162 | one received id with budget left: the step is exactly `PriorityStep`, including the pool members' received lists, of which only the swiped member's changes; a like sent in this phase always completes a match |
| Day.FillPhase | src/index.ts:165-176 | the fill loop spends exactly the rest of the budget and ends exactly where `FillAfter` does after `pulls` pulls; the cursor ends `pulls` round-robin positions on; each pool member's received list grows by the swiper's id once per like drawn on it, in swipe order; the pool gains one like per like drawn and as many matches as the swiper |
| Day.FillPulls | src/index.ts:166-176 | the `while` loop of the fill phase ends with the budget spent, where `FillAfter` ends after `pulls` pulls, with the pool members' received lists those of that state |
| Day.Pull | src/index.ts:166-176 | one pull is exactly `FillStep`, including the pool members' received lists: a matched candidate is passed over without spending budget or a draw and brings the cursor closer to an unmatched one, any other is swiped |
| Day.SwipeCandidate | src/index.ts:160-175 | a swipe of an unmatched pool member appends the member's id to the swiper's sent list on a like and the swiper's id to the member's received list, gives the pool exactly one like on a like, keeps the population consistent and gives both sides the same number of new matches |
| Day.TrackedSwipe | src/index.ts:46-60 | a swipe with the next draw changes the pool members' received lists as `SwipeAt` says: only the swiped member's list changes, by the swiper's id on a like |
| Day.SwiperTurn | src/index.ts:146-176 | one swiper's turn is `TurnTaken`: the liked-you phase over all received ids, then the fill phase from the shared cursor, spending exactly `profilesPerDay` swipes, leaving the cursor `pulls` positions on modulo the pool size and the pool members' received lists as the turn's swipes made them; the pool gains one like per like drawn and no pool member swipes |
| Day.TurnAt | src/index.ts:146-176 | the turn of the `i`-th swiper is `TurnTaken` from its like lists, the draw counter, the cursor and the pool's received lists where the round stands, and the round's trace grows by that turn; it changes only that swiper and the pool, and gives both sides the same number of new matches |
| Day.NextTurn | src/index.ts:146-177 | each turn of the `forEach` extends the round's schedule by one `TurnTaken`, starting at the cursor, the draw and the pool's received lists where the previous turn stopped |
| Day.SwipeRound | src/index.ts:146-177 | over the whole `forEach` the turns follow `TurnsTaken` with the cursor starting at 0 and passed from turn to turn; each pool member ends with its received likes followed by what each turn's swipes gave it, in turn order; every swiper spends exactly its budget and receives no like; the pool neither swipes nor sends likes and gains one like per like drawn; both sides gain the same number of matches |
| Day.BudgetUniform | src/index.ts:146-177 | `n` swipers with the same daily budget use `n` budgets of draws |
| Day.ReadyPermuted | src/index.ts:144 | reordering the pool keeps the day's preconditions and the pool's totals |
| Day.SortForDay | src/index.ts:142-144 | sorting the pool changes no user and keeps the day runnable |
| Day.RunDay | src/index.ts:141-178 | the pool array ends as the stable ascending sort of itself, keyed by the swipe counts at the start of the day; the swipers then take their turns on it in order, as `TurnsTaken` says, with one shared cursor; each member of the sorted pool ends with its received likes followed by what the turns gave it, in turn order; every swiper spends exactly its budget, the population stays consistent, the pool gains one like per like drawn, and the swipers' and the pool's match totals rise equally |
| Simulation.UnmatchedBound | src/index.ts:166-176 | a user that has sent `n` likes is matched with at most `n` pool members, so the fill phase can always find a candidate when the pool is large enough |
| Simulation.DayIsReady | src/index.ts:124-134 | after `d` of `days` days, a pool of at least `days` budgets has enough unmatched members for each swiper |
| Simulation.CreateUsers | src/index.ts:109-121 | one `push` loop creates distinct fresh users with consecutive ids starting at the given offset, the same gender and budget, and blank counters |
| Simulation.CreatePopulations | src/index.ts:108-121 | boys get ids `0 .. n-1` and girls the next ids; together they form a consistent population with no likes and no matches |
| Simulation.HalfDay | src/index.ts:127-131 | one `runDay` between the two population arrays: the swipers' array is untouched, the pool array holds the same users without repetition, the swipers reach `d + 1` budgets of swipes while the pool's swipe counts stay, the day uses `swipers.length * profilesPerDay` draws, the pool gains one like per like drawn and the swipers none, and both sides gain the same number of matches |
| Simulation.BothDirections | src/index.ts:127-131 | one day in a given order: the second population receives the likes among the first `first.length * profilesPerDay` draws of the day, the first population those among the rest |
| Simulation.SimulateDay | src/index.ts:126-132 | a day runs both directions, girls swiping first unless `reverse`; which population receives the likes of the day's first draws depends on `reverse`; every user spends one more budget and both totals of matches stay equal |
| Simulation.TotalSwipesClosed | src/index.ts:124-134 | a simulation of `days` days uses `days` times one budget per user of draws |
| Simulation.DayLikes | src/index.ts:126-132 | on each day, in either order, the likes the boys receive and those the girls receive add up to the likes among the day's draws |
| Simulation.LikesByPopulation | src/index.ts:124-134 | over the whole day loop the boys' likes and the girls' likes split the likes among the draws used: every like drawn goes to exactly one population |
| Simulation.RunDays | src/index.ts:124-134 | after the day loop every user has `days` budgets of swipes, exactly `TotalSwipes` draws were used, the boys received exactly `BoysLikes` likes and the girls exactly `GirlsLikes`, which together are one like per like drawn |
| Simulation.Simulate | src/index.ts:96-139 | the ids are those created (boys `0 .. boys - 1`, girls the next ones); every user ends with exactly `days` budgets of swipes; the population is consistent (each match counted once, on both sides); the boys' and girls' match totals are equal; the boys' like total is `BoysLikes` and the girls' is `GirlsLikes`, so it depends on `reverse` as the order of the two `runDay` calls does, and the two add up to the likes among the draws used; each side has at most as many matches as likes; with no like drawn both totals are zero |
| Simulation.ZeroMatches | src/index.ts:108-121 | a population of fresh users has no matches |
| Simulation.LikesZero | src/index.ts:108-121 | a population of fresh users has received no likes |
| Simulation.MatchesAtMostLikes | src/index.ts:46-60 | in a well-formed population the total matches are at most the total likes received, since a match needs a like from the matched id |
| Simulation.QuietTotals | src/index.ts:135-138 | in the totals of two well-formed populations matches never exceed likes, and without any like there is no match either |

## Left out

- `Math.random()` (src/index.ts:48) is not modelled. Each draw is an injected boolean, and the model says nothing about probabilities.
- `likePercentage` and `likeRate` are dropped. They only feed the random draw.
- Users.User.constructor: drops the optional initial counters and id lists (src/index.ts:29-33). `simulate` never passes them, so every user starts blank.
- The division in `stats` (src/index.ts:85-88) is left out; the model keeps the integer totals it divides. The cross-run float averaging (src/index.ts:211-228) is left out too.
- `printStats` and the console lines (src/index.ts:180-183, 188, 230) are left out.
- The driver sweep over run counts (src/index.ts:185-231) is left out.
- The unused module constants (src/index.ts:1-5) are left out.
- Counters are unbounded integers. JavaScript numbers are doubles, which are exact only up to 2^53.
- Day.FillPhase: requires at least as many unmatched pool members as the budget still to spend. In the source, an empty pool makes `% 0` give NaN and the access throws; a pool whose members are all matched with the swiper loops forever. This precondition excludes both cases. It also excludes some runs that end in the source, because the same unmatched member may be swiped more than once: with a budget of 2 and a pool of one unmatched member that never liked the swiper, the source swipes that member twice and stops.
- Day.RunDay: requires each swiper to have at least `profilesPerDay` unmatched pool members at the start of the day. This is sufficient, but the exact condition depends on the draws of the same day.
- Simulation.Simulate: requires `days * profilesSeenPerDay` of each population to be at most the other population's size. This is a sufficient condition for the day loop to terminate; runs outside it may still terminate in the source, depending on the draws.
- Simulation.Simulate: returns the integer totals instead of averages. It also returns the two population arrays, so its contract can speak about the users.
- Simulation.HalfDay: does not restate the sort of the pool and the order of the turns. Those are the ensures of Day.RunDay, which HalfDay calls on the swipers' contents and the pool array.
- Simulation.SimulateDay: states the likes and the draws per direction, but not the turn schedule of each direction, which Day.RunDay states.
- Sorting.SortPoolBySwipes: is an insertion sort. The engine's `Array.prototype.sort` is a different algorithm, but it is stable, and a stable sort by one key has only one possible result: `SortedBy`.
- Day.FillPhase: keeps the shared cursor reduced modulo the pool size. `profileIdx` grows without bound, and only its remainder is ever used (Schedule.RotatedMod).
- Day.SwipeRound: takes the swipers and the sorted pool as sequences of references. `runDay` never reassigns either array while the swipers take their turns, and every update goes through the shared `User` objects.
- Swipe on oneself (`this == other`) is modelled by Users.User.Swipe but never happens inside `runDay`, because the swipers and the pool are disjoint.
- No concrete end-to-end run is proved, for example two users per side with every draw a like. Only the general properties above are proved.

## Notes on the code

- The code does not prevent a like that was not returned from being sent again on a later day, so the id lists may hold duplicates; the model keeps them as lists with duplicates. A like sent in the liked-you phase always completes a match (Day.VisitLiker), and a matched pair is skipped from then on, so the duplicates come from fill-phase likes that were not returned.
- The code has no guard for an empty pool (src/index.ts:168-169): the remainder by zero is NaN and the access throws. The model makes enough unmatched pool members a precondition (Day.FillPhase, Day.RunDay), which rules out an empty pool whenever a swipe is due.
