/** The review scheduler of the `useReviewSystem` hook: a list of review
    items, each with a difficulty from 1 to 5 that moves with the item's
    answer accuracy and picks the next review interval from a fixed table.
    Times are milliseconds; ISO time strings compare like the instants they
    denote, so the due test compares integers. */
module ReviewSystem {
  import opened Util
  import opened Types

  const DayMs: int := 86400000

  /** The review intervals in days, by difficulty 1 to 6 and above. */
  const Intervals: seq<int> := [1, 3, 7, 14, 30, 90]

  /** `calculateNextReview`'s interval: the table entry at
      clamp(difficulty - 1, 0, 5). */
  function IntervalDays(difficulty: int): (days: int)
    ensures days in Intervals
    ensures difficulty <= 1 ==> days == 1
    ensures difficulty >= 6 ==> days == 90
    ensures 1 <= difficulty <= 6 ==> days == Intervals[difficulty - 1]
  {
    var index := if difficulty - 1 < |Intervals| - 1 then difficulty - 1 else |Intervals| - 1;
    Intervals[if index < 0 then 0 else index]
  }

  /** A harder item is never scheduled sooner. */
  lemma IntervalDaysMonotone(a: int, b: int)
    requires a <= b
    ensures IntervalDays(a) <= IntervalDays(b)
  {
    if 1 <= a && b <= 6 {
      assert forall i, j :: 0 <= i <= j < |Intervals| ==> Intervals[i] <= Intervals[j];
    }
  }

  /** `calculateNextReview(difficulty)` taken at time `now`: between one and
      ninety days ahead. */
  function NextReview(difficulty: int, now: int): (t: int)
    ensures now + DayMs <= t <= now + 90 * DayMs
    ensures t - now == IntervalDays(difficulty) * DayMs
  {
    now + IntervalDays(difficulty) * DayMs
  }

  /** The accuracy test `correct / total >= tenths / 10` on integers; for a
      positive total it holds exactly when the quotient reaches the bound. */
  predicate AccuracyAtLeast(correct: int, total: int, tenths: int) {
    10 * correct >= tenths * total
  }

  /** `calculateDifficulty(correct / total, current)`: one step up (capped at
      5) from accuracy 0.9, unchanged from 0.7, one step down (floored at 1)
      below. */
  function NextDifficulty(correct: int, total: int, current: int): (d: int)
    requires total > 0
    ensures AccuracyAtLeast(correct, total, 9) ==> d == current + 1 || (d == 5 && current >= 5)
    ensures AccuracyAtLeast(correct, total, 7) && !AccuracyAtLeast(correct, total, 9) ==> d == current
    ensures !AccuracyAtLeast(correct, total, 7) ==> d == current - 1 || (d == 1 && current <= 1)
    ensures ValidDifficulty(current) ==> ValidDifficulty(d)
  {
    if AccuracyAtLeast(correct, total, 9) then (if current + 1 < 5 then current + 1 else 5)
    else if AccuracyAtLeast(correct, total, 7) then current
    else if current - 1 > 1 then current - 1 else 1
  }

  /** Counts a review item can hold: no more correct answers than answers. */
  predicate CountsValid(item: ReviewItem) {
    0 <= item.correctCount <= item.totalCount
  }

  /** One item after an answer at time `now`: both counts move, the
      difficulty follows the new accuracy and the next review follows the
      new difficulty; nothing else changes. */
  function ReviewedItem(item: ReviewItem, isCorrect: bool, now: int): (r: ReviewItem)
    requires item.totalCount >= 0
    ensures r == item.(correctCount := r.correctCount, totalCount := r.totalCount,
                       difficulty := r.difficulty, lastReviewed := now, nextReview := r.nextReview)
    ensures r.totalCount == item.totalCount + 1
    ensures r.correctCount == item.correctCount + (if isCorrect then 1 else 0)
    ensures r.difficulty == NextDifficulty(r.correctCount, r.totalCount, item.difficulty)
    ensures r.nextReview == NextReview(r.difficulty, now)
    ensures CountsValid(item) ==> CountsValid(r)
  {
    var newCorrectCount := item.correctCount + (if isCorrect then 1 else 0);
    var newTotalCount := item.totalCount + 1;
    var newDifficulty := NextDifficulty(newCorrectCount, newTotalCount, item.difficulty);
    item.(correctCount := newCorrectCount, totalCount := newTotalCount, difficulty := newDifficulty,
          lastReviewed := now, nextReview := NextReview(newDifficulty, now))
  }

  /** The list after `updateReviewItem(itemId, isCorrect)`: the items with
      that id are reviewed, all others are untouched. */
  function ItemsAfterReview(items: seq<ReviewItem>, itemId: string, isCorrect: bool, now: int): (r: seq<ReviewItem>)
    requires forall i :: 0 <= i < |items| ==> items[i].totalCount >= 0
    ensures |r| == |items|
    ensures forall i :: 0 <= i < |items| && items[i].id != itemId ==> r[i] == items[i]
    ensures forall i :: 0 <= i < |items| && items[i].id == itemId ==> r[i] == ReviewedItem(items[i], isCorrect, now)
  {
    seq(|items|, i requires 0 <= i < |items| =>
      if items[i].id == itemId then ReviewedItem(items[i], isCorrect, now) else items[i])
  }

  /** Reviews keep every difficulty inside the documented range 1 to 5. */
  lemma ReviewKeepsDifficultyRange(items: seq<ReviewItem>, itemId: string, isCorrect: bool, now: int)
    requires forall i :: 0 <= i < |items| ==> items[i].totalCount >= 0 && ValidDifficulty(items[i].difficulty)
    ensures forall i :: 0 <= i < |items| ==> ValidDifficulty(ItemsAfterReview(items, itemId, isCorrect, now)[i].difficulty)
  {
    var r := ItemsAfterReview(items, itemId, isCorrect, now);
    forall i | 0 <= i < |items| ensures ValidDifficulty(r[i].difficulty) {
      if items[i].id == itemId {
        assert r[i] == ReviewedItem(items[i], isCorrect, now);
      }
    }
  }

  /** `getDueReviews` selects active items whose review time has come. */
  predicate IsDue(item: ReviewItem, now: int) {
    item.isActive && item.nextReview <= now
  }

  /** The due items, in list order. */
  function DueReviews(items: seq<ReviewItem>, now: int): (r: seq<ReviewItem>)
    ensures |r| <= |items|
    ensures forall x :: x in r <==> x in items && IsDue(x, now)
  {
    Filter(items, (x: ReviewItem) => IsDue(x, now))
  }

  /** Order is kept: appending an item appends it to the due list iff it is due. */
  lemma DueReviewsAppend(items: seq<ReviewItem>, x: ReviewItem, now: int)
    ensures DueReviews(items + [x], now) == DueReviews(items, now) + (if IsDue(x, now) then [x] else [])
  {
    FilterAppend(items, [x], (y: ReviewItem) => IsDue(y, now));
  }

  /** An item just reviewed is not due at that moment; if active it becomes
      due exactly at its new review time. */
  lemma ReviewedItemNotDueNow(item: ReviewItem, isCorrect: bool, now: int)
    requires item.totalCount >= 0
    ensures !IsDue(ReviewedItem(item, isCorrect, now), now)
    ensures item.isActive ==> IsDue(ReviewedItem(item, isCorrect, now), ReviewedItem(item, isCorrect, now).nextReview)
  {
  }

  /** An item answered correctly every time climbs from difficulty 3 to the
      cap and its interval grows from 14 to 30 days. */
  lemma PerfectRecordClimbs(item: ReviewItem, t1: int, t2: int, t3: int)
    requires item.difficulty == 3 && item.correctCount == 0 && item.totalCount == 0
    ensures var r1 := ReviewedItem(item, true, t1);
            var r2 := ReviewedItem(r1, true, t2);
            var r3 := ReviewedItem(r2, true, t3);
            && r1.difficulty == 4 && r1.nextReview == t1 + 14 * DayMs
            && r2.difficulty == 5 && r2.nextReview == t2 + 30 * DayMs
            && r3.difficulty == 5 && r3.nextReview == t3 + 30 * DayMs
  {
    var r1 := ReviewedItem(item, true, t1);
    assert IntervalDays(4) == 14 && IntervalDays(5) == 30;
    assert r1.correctCount == 1 && r1.totalCount == 1;
  }

  function ReviewTypeName(kind: ReviewType): string {
    match kind
    case QuizReview => "quiz"
    case TermReview => "term"
    case AiInfoReview => "ai_info"
  }

  function ContentIdText(c: ContentId): string {
    match c
    case TextId(t) => t
    case NumberId(n) => IntToString(n)
  }

  /** The id `${type}_${contentId}_${Date.now()}`. */
  function ReviewItemId(kind: ReviewType, contentId: ContentId, now: int): string {
    ReviewTypeName(kind) + "_" + ContentIdText(contentId) + "_" + IntToString(now)
  }

  /** The review items of one session. */
  class ReviewSchedule {
    var items: seq<ReviewItem>

    predicate Valid()
      reads this
    {
      forall i :: 0 <= i < |items| ==> CountsValid(items[i])
    }

    constructor ()
      ensures items == [] && Valid()
    {
      items := [];
    }

    /** `addReviewItem`: appends a fresh active item with no answers, due one
        day from `now` whatever difficulty the caller supplies, which is
        stored as given. */
    method AddReviewItem(kind: ReviewType, contentId: ContentId, difficulty: int, now: int) returns (item: ReviewItem)
      modifies this
      ensures items == old(items) + [item]
      ensures item == ReviewItem(ReviewItemId(kind, contentId, now), kind, contentId, now, now + DayMs, difficulty, 0, 0, true)
      ensures item.nextReview == NextReview(1, now)
      ensures !IsDue(item, now) && IsDue(item, now + DayMs)
      ensures old(Valid()) ==> Valid()
    {
      item := ReviewItem(ReviewItemId(kind, contentId, now), kind, contentId, now, NextReview(1, now), difficulty, 0, 0, true);
      items := items + [item];
    }

    /** `updateReviewItem(itemId, isCorrect)` at time `now`. */
    method UpdateReviewItem(itemId: string, isCorrect: bool, now: int)
      requires Valid()
      modifies this
      ensures items == ItemsAfterReview(old(items), itemId, isCorrect, now)
      ensures Valid()
    {
      items := ItemsAfterReview(items, itemId, isCorrect, now);
    }

    /** `getDueReviews` at time `now`. */
    method GetDueReviews(now: int) returns (due: seq<ReviewItem>)
      ensures due == DueReviews(items, now)
      ensures forall x :: x in due ==> x in items && x.isActive && x.nextReview <= now
    {
      due := DueReviews(items, now);
    }
  }
}
