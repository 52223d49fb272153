/** The spaced-repetition scheduler and the due-card filter of
    lib/spaced-repetition/algorithm.ts.

    Ease factors are integer hundredths (250 stands for 2.5), so the
    floating-point sum of the source becomes exact integer arithmetic and the
    final "round to two decimals" is the identity. Days and instants are
    integer day numbers; the reviewing day is a parameter instead of
    `new Date()`. */
module Scheduler {
  import opened Rounding

  /** 1 = Again, 2 = Hard, 3 = Good, 4 = Easy. */
  type Rating = r: int | 1 <= r <= 4 witness 3

  /** The ease floor, 1.3, in hundredths. */
  const MinEase: int := 130

  /** The memory state of a newly created flashcard: ease 2.5, no interval, no repetitions. */
  const InitialEase: int := 250

  /** A card's memory state as read before a review (ease in hundredths). */
  datatype MemoryState = MemoryState(easeFactor: int, interval: nat, repetitions: nat)

  /** The scheduler's result: the new memory state and the day the card is next due. */
  datatype ReviewData = ReviewData(easeFactor: int, interval: nat, repetitions: nat, nextReview: int)
  {
    function Memory(): MemoryState { MemoryState(easeFactor, interval, repetitions) }
  }

  function InitialMemory(): MemoryState { MemoryState(InitialEase, 0, 0) }

  /** The ease change of a rating, `0.1 - (4 - r) * (0.08 + (4 - r) * 0.02)`,
      in hundredths. */
  function EaseDelta(rating: Rating): (delta: int)
    ensures rating == 4 ==> delta == 10
    ensures rating == 3 ==> delta == 0
    ensures rating == 2 ==> delta == -14
    ensures rating == 1 ==> delta == -32
  {
    10 - (4 - rating) * (8 + (4 - rating) * 2)
  }

  // ---------------------------------------------------------------------
  // The scheduler as a composition of its steps, for lemmas about it.

  /** Step 1: the interval chosen by the correct/incorrect branch. The
      multiply uses the ease factor the card had before this review. */
  function BranchInterval(rating: Rating, m: MemoryState): (interval: nat)
    requires m.easeFactor >= MinEase
    ensures rating <= 2 ==> interval == 1
    ensures rating >= 3 && m.repetitions <= 1 ==> interval >= 1
  {
    if rating >= 3 then
      if m.repetitions == 0 then 1
      else if m.repetitions == 1 then 6
      else Round(m.interval * m.easeFactor, 100)
    else 1
  }

  /** Steps 2 and 3: the ease change followed by the floor. */
  function NextEase(rating: Rating, easeFactor: int): (e: int)
    ensures e >= MinEase && e >= easeFactor + EaseDelta(rating)
    ensures e == easeFactor + EaseDelta(rating) || e == MinEase
  {
    Max(MinEase, easeFactor + EaseDelta(rating))
  }

  /** Step 4: the Easy and Hard overrides, applied after the branch. */
  function AdjustInterval(rating: Rating, interval: nat): (adjusted: nat)
    ensures rating == 2 ==> adjusted >= 1
    ensures rating == 1 || rating == 3 ==> adjusted == interval
  {
    if rating == 4 then Round(interval * 13, 10)
    else if rating == 2 then Max(1, Round(interval * 5, 10))
    else interval
  }

  /** The new memory state after one review. */
  function Step(rating: Rating, m: MemoryState): (next: MemoryState)
    requires m.easeFactor >= MinEase
    ensures next.easeFactor >= MinEase
    ensures next.repetitions == if rating >= 3 then m.repetitions + 1 else 0
    ensures rating <= 2 ==> next.interval == 1
  {
    var interval := AdjustInterval(rating, BranchInterval(rating, m));
    var repetitions := if rating >= 3 then m.repetitions + 1 else 0;
    MemoryState(NextEase(rating, m.easeFactor), interval, repetitions)
  }

  /** The whole review update: the new memory state, due `interval` days
      after the day of the review. */
  function Schedule(rating: Rating, m: MemoryState, today: int): (r: ReviewData)
    requires m.easeFactor >= MinEase
    ensures r.Memory() == Step(rating, m)
    ensures r.nextReview == today + r.interval
  {
    var next := Step(rating, m);
    ReviewData(next.easeFactor, next.interval, next.repetitions, today + next.interval)
  }

  /** `calculateNextReview`: the locals are updated in the source's order. */
  method CalculateNextReview(rating: Rating, current: MemoryState, today: int) returns (result: ReviewData)
    requires current.easeFactor >= MinEase
    ensures result == Schedule(rating, current, today)
    ensures result.repetitions == if rating >= 3 then current.repetitions + 1 else 0
    ensures rating == 3 && current.repetitions == 0 ==> result.interval == 1
    ensures rating == 3 && current.repetitions == 1 ==> result.interval == 6
    ensures rating == 3 && current.repetitions >= 2 ==>
              result.interval == Round(current.interval * current.easeFactor, 100)
    ensures rating <= 2 ==> result.interval == 1
    ensures rating == 4 ==> result.interval == Round(13 * BranchInterval(rating, current), 10)
    ensures result.easeFactor == current.easeFactor + EaseDelta(rating) || result.easeFactor == MinEase
    ensures result.easeFactor >= MinEase && result.easeFactor >= current.easeFactor + EaseDelta(rating)
    ensures result.nextReview == today + result.interval
  {
    var easeFactor, interval, repetitions := current.easeFactor, current.interval, current.repetitions;

    if rating >= 3 {
      if repetitions == 0 {
        interval := 1;
      } else if repetitions == 1 {
        interval := 6;
      } else {
        interval := Round(interval * easeFactor, 100);
      }
      repetitions := repetitions + 1;
    } else {
      repetitions := 0;
      interval := 1;
    }
    assert interval == BranchInterval(rating, current);

    easeFactor := easeFactor + EaseDelta(rating);
    if easeFactor < MinEase {
      easeFactor := MinEase;
    }
    assert easeFactor == NextEase(rating, current.easeFactor);

    if rating == 4 {
      interval := Round(interval * 13, 10);
    } else if rating == 2 {
      interval := Max(1, Round(interval * 5, 10));
    }

    var nextReview := today + interval;
    result := ReviewData(easeFactor, interval, repetitions, nextReview);
  }

  // ---------------------------------------------------------------------
  // Properties of the scheduler.

  /** A state the scheduler can produce from a new card: the ease is at
      least the floor, a card without repetitions has an interval of at most
      one day, after one repetition it is exactly one day, and after more it
      is positive. */
  predicate Reachable(m: MemoryState)
  {
    && m.easeFactor >= MinEase
    && (m.repetitions == 0 ==> m.interval <= 1)
    && (m.repetitions == 1 ==> m.interval == 1)
    && (m.repetitions >= 2 ==> m.interval >= 1)
  }

  /** With at least two repetitions and a Good or Easy rating the interval
      never shrinks, because the multiplier is at least 1.3. */
  lemma IntervalNeverShrinks(rating: Rating, m: MemoryState, today: int)
    requires m.easeFactor >= MinEase && m.repetitions >= 2 && rating >= 3
    ensures Schedule(rating, m, today).interval >= m.interval
  {
    var i := m.interval;
    var base := Round(i * m.easeFactor, 100);
    assert i * m.easeFactor >= i * MinEase;
    assert base >= i;
    assert Round(base * 13, 10) >= base;
  }

  /** Repeating the same Good or Easy review grows the interval from one
      repetition count to the next: the 1-then-6 start, then the ease. */
  lemma GoodIntervalsGrow(rating: Rating, m: MemoryState, today: int)
    requires Reachable(m) && rating >= 3
    ensures var next := Schedule(rating, m, today);
            next.interval >= m.interval && next.interval >= 1
  {
    if m.repetitions >= 2 {
      IntervalNeverShrinks(rating, m, today);
      assert m.interval >= 1;
    }
  }

  /** Every review keeps the state reachable and schedules the card at
      least one day ahead. */
  lemma ScheduleKeepsReachable(rating: Rating, m: MemoryState, today: int)
    requires Reachable(m)
    ensures Reachable(Schedule(rating, m, today).Memory())
    ensures Schedule(rating, m, today).interval >= 1
    ensures Schedule(rating, m, today).nextReview > today
  {
    if rating >= 3 {
      GoodIntervalsGrow(rating, m, today);
    }
  }

  /** The schedule after a sequence of reviews, oldest rating first. */
  function Replay(m: MemoryState, ratings: seq<Rating>): (final: MemoryState)
    requires m.easeFactor >= MinEase
    ensures final.easeFactor >= MinEase
    decreases |ratings|
  {
    if ratings == [] then m
    else Step(ratings[|ratings| - 1], Replay(m, ratings[..|ratings| - 1]))
  }

  /** The number of trailing Good or Easy ratings. */
  function TrailingSuccesses(ratings: seq<Rating>): nat
    decreases |ratings|
  {
    if ratings == [] || ratings[|ratings| - 1] < 3 then 0
    else 1 + TrailingSuccesses(ratings[..|ratings| - 1])
  }

  /** `repetitions` counts consecutive successful reviews: after any sequence
      of ratings it is the length of the final run of ratings 3 or 4, plus
      the starting count when that run is the whole sequence. */
  lemma {:induction false} RepetitionsCountTrailingSuccesses(m: MemoryState, ratings: seq<Rating>)
    requires m.easeFactor >= MinEase
    ensures Replay(m, ratings).repetitions ==
      if TrailingSuccesses(ratings) == |ratings| then m.repetitions + |ratings|
      else TrailingSuccesses(ratings)
    decreases |ratings|
  {
    if ratings != [] {
      RepetitionsCountTrailingSuccesses(m, ratings[..|ratings| - 1]);
    }
  }

  /** From a new card, any sequence of reviews leaves a reachable state. */
  lemma {:induction false} ReplayKeepsReachable(m: MemoryState, ratings: seq<Rating>)
    requires Reachable(m)
    ensures Reachable(Replay(m, ratings))
    decreases |ratings|
  {
    if ratings != [] {
      var before := Replay(m, ratings[..|ratings| - 1]);
      ReplayKeepsReachable(m, ratings[..|ratings| - 1]);
      ScheduleKeepsReachable(ratings[|ratings| - 1], before, 0);
    }
  }

  /** The worked examples: first, second and third Good review of a new
      card, an Easy and a Hard third review. */
  lemma WorkedExamples(today: int)
    ensures Schedule(3, MemoryState(250, 0, 0), today) == ReviewData(250, 1, 1, today + 1)
    ensures Schedule(3, MemoryState(250, 1, 1), today) == ReviewData(250, 6, 2, today + 6)
    ensures Schedule(3, MemoryState(250, 6, 2), today) == ReviewData(250, 15, 3, today + 15)
    ensures Schedule(4, MemoryState(250, 6, 2), today) == ReviewData(260, 20, 3, today + 20)
    ensures Schedule(2, MemoryState(250, 10, 3), today) == ReviewData(236, 1, 0, today + 1)
    ensures Schedule(1, MemoryState(130, 40, 5), today) == ReviewData(130, 1, 0, today + 1)
  {
  }

  /** The Easy multiplier on the first intervals: 1 stays 1, 6 becomes 8, 15 becomes 20. */
  lemma EasyMultiplierExamples()
    ensures AdjustInterval(4, 1) == 1 && AdjustInterval(4, 6) == 8 && AdjustInterval(4, 15) == 20
  {
  }

  // ---------------------------------------------------------------------
  // The due-card filter.

  /** A card as the filter sees it: an identity and its next-review day. */
  datatype Card = Card(id: int, nextReview: int)

  predicate IsDue(c: Card, now: int)
  {
    c.nextReview <= now
  }

  /** `sub` is `s` with some elements removed, the rest in their order. */
  predicate IsSubsequence<T(==)>(sub: seq<T>, s: seq<T>)
    decreases |s|
  {
    if sub == [] then true
    else if s == [] then false
    else if sub[0] == s[0] then IsSubsequence(sub[1..], s[1..])
    else IsSubsequence(sub, s[1..])
  }

  /** `getDueCards`: the cards whose next review is at or before `now`, kept
      in their original order and with their multiplicity. */
  function DueCards(cards: seq<Card>, now: int): (due: seq<Card>)
    ensures IsSubsequence(due, cards)
    ensures forall c :: c in due <==> c in cards && IsDue(c, now)
    ensures forall c :: multiset(due)[c] == if IsDue(c, now) then multiset(cards)[c] else 0
    decreases |cards|
  {
    if cards == [] then []
    else
      var rest := DueCards(cards[1..], now);
      assert cards == [cards[0]] + cards[1..];
      if IsDue(cards[0], now) then [cards[0]] + rest else rest
  }

  /** Filtering again with the same `now` changes nothing. */
  lemma {:induction false} DueCardsIdempotent(cards: seq<Card>, now: int)
    ensures DueCards(DueCards(cards, now), now) == DueCards(cards, now)
    decreases |cards|
  {
    if cards != [] {
      DueCardsIdempotent(cards[1..], now);
    }
  }

  /** A card just reviewed from a reachable state is not due on the day of
      the review, so it leaves that day's due set. */
  lemma ReviewedCardNotDueToday(rating: Rating, m: MemoryState, today: int, id: int)
    requires Reachable(m)
    ensures DueCards([Card(id, Schedule(rating, m, today).nextReview)], today) == []
  {
    ScheduleKeepsReachable(rating, m, today);
  }
}
