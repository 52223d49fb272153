/** The two statistics helpers of app/api/dashboard/route.ts: the study
    streak and the seven-day performance buckets. Calendar days are integer
    day numbers and "today" is a parameter. */
module Dashboard {
  import opened Rounding

  /** A review record as the helpers see it: its calendar day and its rating. */
  datatype Review = Review(day: int, rating: int)

  /** The streak walk stops once the streak passes this many days. */
  const StreakCap: nat := 365

  /** The days on which at least one review was made. */
  function Days(reviews: seq<Review>): set<int>
  {
    set r | r in reviews :: r.day
  }

  /** `calculateStudyStreak`: the number of consecutive reviewed days ending
      today, or ending yesterday when today has no review yet, capped at 366. */
  method CalculateStudyStreak(reviews: seq<Review>, today: int) returns (streak: nat)
    ensures |reviews| == 0 ==> streak == 0
    ensures streak <= StreakCap + 1
    ensures var last := if today in Days(reviews) then today else today - 1;
            && (forall d :: last - streak < d <= last ==> d in Days(reviews))
            && (streak <= StreakCap ==> last - streak !in Days(reviews))
  {
    if |reviews| == 0 {
      return 0;
    }

    // Group reviews by day.
    var reviewsByDate: map<int, nat> := map[];
    var i := 0;
    while i < |reviews|
      invariant 0 <= i <= |reviews|
      invariant reviewsByDate.Keys == Days(reviews[..i])
    {
      var date := reviews[i].day;
      reviewsByDate := reviewsByDate[date := (if date in reviewsByDate then reviewsByDate[date] else 0) + 1];
      assert reviews[..i + 1] == reviews[..i] + [reviews[i]];
      i := i + 1;
    }
    assert reviews[..i] == reviews;
    ghost var days := Days(reviews);

    // Walk backwards from today.
    streak := 0;
    var currentDate := today;
    while true
      invariant streak <= StreakCap
      invariant today in days ==> currentDate == today - streak
      invariant today !in days ==> currentDate == today - 1 - streak || (streak == 0 && currentDate == today)
      invariant forall d :: currentDate < d <= currentDate + streak ==> d in days
      decreases StreakCap - streak, currentDate - today + 2
    {
      if currentDate in reviewsByDate {
        streak := streak + 1;
        currentDate := currentDate - 1;
      } else {
        // One allowed gap: today may have no review yet.
        if streak == 0 && currentDate == today {
          currentDate := currentDate - 1;
          continue;
        }
        break;
      }
      if streak > StreakCap {
        break;
      }
    }
  }

  // ---------------------------------------------------------------------
  // Daily performance.

  /** One entry of the performance chart. */
  datatype DayStats = DayStats(day: int, reviews: nat, correct: nat, accuracy: nat)

  /** The counters kept per day while reviews are counted. */
  datatype Tally = Tally(total: nat, correct: nat)

  /** The number of reviews made on `day`. */
  function CountOn(reviews: seq<Review>, day: int): (n: nat)
    ensures n <= |reviews|
    decreases |reviews|
  {
    if reviews == [] then 0
    else CountOn(reviews[..|reviews| - 1], day) + (if reviews[|reviews| - 1].day == day then 1 else 0)
  }

  /** The number of reviews made on `day` rated 3 (Good) or 4 (Easy); never
      more than all reviews of that day. */
  function CorrectOn(reviews: seq<Review>, day: int): (n: nat)
    ensures n <= CountOn(reviews, day)
    decreases |reviews|
  {
    if reviews == [] then 0
    else
      var last := reviews[|reviews| - 1];
      CorrectOn(reviews[..|reviews| - 1], day) + (if last.day == day && last.rating >= 3 then 1 else 0)
  }

  /** `Math.round(correct / total * 100)`, or 0 for a day without reviews:
      the percentage rounded to the nearest integer, halves up. */
  function Accuracy(correct: nat, total: nat): (a: nat)
    requires correct <= total
    ensures a <= 100
    ensures total == 0 ==> a == 0
  {
    if total > 0 then
      var a := Round(100 * correct, total);
      RoundIsNearest(100 * correct, total);
      PercentBound(a, correct, total);
      a
    else 0
  }

  /** For a day with reviews, the accuracy is the integer nearest to
      100 * correct / total, exact halves going up. */
  lemma AccuracyIsNearest(correct: nat, total: nat)
    requires correct <= total && total > 0
    ensures var a := Accuracy(correct, total);
            2 * total * a - total <= 200 * correct < 2 * total * a + total
  {
    RoundIsNearest(100 * correct, total);
  }

  /** A rounded percentage of `correct <= total` is at most 100. */
  lemma PercentBound(a: int, correct: nat, total: nat)
    requires correct <= total && total > 0
    requires 2 * total * a - total <= 200 * correct
    ensures a <= 100
  {
    assert 200 * correct <= 200 * total;
    assert total * (2 * a) <= total * 201;
    MulCancel(total, 2 * a, 201);
  }

  /** The statistics of one day. */
  function StatsOn(reviews: seq<Review>, day: int): (e: DayStats)
    ensures e.day == day && e.correct <= e.reviews <= |reviews| && e.accuracy <= 100
  {
    var total := CountOn(reviews, day);
    var correct := CorrectOn(reviews, day);
    DayStats(day, total, correct, Accuracy(correct, total))
  }

  /** The seven entries, from six days ago through today. */
  function Performance(reviews: seq<Review>, today: int): (p: seq<DayStats>)
    ensures |p| == 7
    ensures forall k :: 0 <= k < 7 ==> p[k] == StatsOn(reviews, today - 6 + k)
  {
    seq(7, k requires 0 <= k < 7 => StatsOn(reviews, today - 6 + k))
  }

  /** The window's days, oldest first. */
  ghost predicate IsWindow(order: seq<int>, today: int)
  {
    |order| == 7 && forall k :: 0 <= k < 7 ==> order[k] == today - 6 + k
  }

  /** The bucket map holds exactly the window's days. */
  ghost predicate CoversWindow(dailyData: map<int, Tally>, today: int)
  {
    forall d :: d in dailyData <==> today - 6 <= d <= today
  }

  /** The first loop of `calculateDailyPerformance`: one empty bucket per
      day of the window, the days recorded in insertion order. */
  method InitWindow(today: int) returns (order: seq<int>, dailyData: map<int, Tally>)
    ensures IsWindow(order, today)
    ensures CoversWindow(dailyData, today)
    ensures forall d :: d in dailyData ==> dailyData[d] == Tally(0, 0)
  {
    order := [];
    dailyData := map[];
    var i := 6;
    while i >= 0
      invariant -1 <= i <= 6
      invariant |order| == 6 - i
      invariant forall k :: 0 <= k < |order| ==> order[k] == today - 6 + k
      invariant forall d :: d in dailyData <==> today - 6 <= d < today - i
      invariant forall d :: d in dailyData ==> dailyData[d] == Tally(0, 0)
    {
      var date := today - i;
      order := order + [date];
      dailyData := dailyData[date := Tally(0, 0)];
      i := i - 1;
    }
  }

  /** The second loop: every review on a day that has a bucket adds one to
      its total, and one to its correct count when rated 3 or 4; reviews of
      other days are skipped. */
  method CountReviews(reviews: seq<Review>, today: int, empty: map<int, Tally>) returns (dailyData: map<int, Tally>)
    requires CoversWindow(empty, today)
    requires forall d :: d in empty ==> empty[d] == Tally(0, 0)
    ensures CoversWindow(dailyData, today)
    ensures forall d :: d in dailyData ==>
              dailyData[d] == Tally(CountOn(reviews, d), CorrectOn(reviews, d))
  {
    dailyData := empty;
    var j := 0;
    while j < |reviews|
      invariant 0 <= j <= |reviews|
      invariant CoversWindow(dailyData, today)
      invariant forall d :: d in dailyData ==>
                  dailyData[d] == Tally(CountOn(reviews[..j], d), CorrectOn(reviews[..j], d))
    {
      var review := reviews[j];
      assert reviews[..j + 1][..j] == reviews[..j];
      if review.day in dailyData {
        var data := dailyData[review.day];
        data := data.(total := data.total + 1);
        if review.rating >= 3 {
          data := data.(correct := data.correct + 1);
        }
        dailyData := dailyData[review.day := data];
      }
      j := j + 1;
    }
    assert reviews[..j] == reviews;
  }

  /** The third loop: the buckets read back in insertion order, each with
      its rounded accuracy. */
  method ToChart(reviews: seq<Review>, today: int, order: seq<int>, dailyData: map<int, Tally>)
    returns (result: seq<DayStats>)
    requires IsWindow(order, today) && CoversWindow(dailyData, today)
    requires forall d :: d in dailyData ==>
               dailyData[d] == Tally(CountOn(reviews, d), CorrectOn(reviews, d))
    ensures result == Performance(reviews, today)
  {
    ghost var p := Performance(reviews, today);
    result := [];
    var k := 0;
    while k < |order|
      invariant 0 <= k <= |order|
      invariant result == p[..k]
    {
      var date := order[k];
      var data := dailyData[date];
      assert p[..k + 1] == p[..k] + [p[k]];
      result := result + [DayStats(date, data.total, data.correct, Accuracy(data.correct, data.total))];
      k := k + 1;
    }
    assert result == p;
  }

  /** `calculateDailyPerformance`: the bucket map is filled for the last
      seven days in order, every review on one of those days is counted, and
      the buckets are read back in insertion order. */
  method CalculateDailyPerformance(reviews: seq<Review>, today: int) returns (result: seq<DayStats>)
    ensures |result| == 7
    ensures forall k :: 0 <= k < 7 ==> result[k].day == today - 6 + k
    ensures forall k :: 0 <= k < 7 ==>
              && result[k].reviews == CountOn(reviews, result[k].day)
              && result[k].correct == CorrectOn(reviews, result[k].day)
              && result[k].correct <= result[k].reviews
              && result[k].accuracy <= 100
    ensures result == Performance(reviews, today)
  {
    var order, empty := InitWindow(today);
    var dailyData := CountReviews(reviews, today, empty);
    result := ToChart(reviews, today, order, dailyData);
    PerformanceEntries(reviews, today);
  }

  /** Every entry of the window covers its own day, with the review and
      correct counts of that day and an accuracy of at most 100. */
  lemma PerformanceEntries(reviews: seq<Review>, today: int)
    ensures forall k :: 0 <= k < 7 ==>
              var e := Performance(reviews, today)[k];
              && e.day == today - 6 + k
              && e.reviews == CountOn(reviews, e.day)
              && e.correct == CorrectOn(reviews, e.day)
              && e.correct <= e.reviews
              && e.accuracy <= 100
  {
  }

  /** Counting one more review: it adds exactly one to the total of its own
      day when that day is in the window, one to the correct count when it
      is also rated 3 or 4, and leaves every other entry as it was. */
  lemma PerformanceAddReview(reviews: seq<Review>, r: Review, today: int, k: nat)
    requires k < 7
    ensures var before := Performance(reviews, today)[k];
            var after := Performance(reviews + [r], today)[k];
            && after.day == before.day
            && after.reviews == before.reviews + (if r.day == before.day then 1 else 0)
            && after.correct == before.correct + (if r.day == before.day && r.rating >= 3 then 1 else 0)
  {
    assert (reviews + [r])[..|reviews|] == reviews;
  }

  /** A review outside the seven-day window changes nothing. */
  lemma PerformanceIgnoresOldReview(reviews: seq<Review>, r: Review, today: int)
    requires r.day < today - 6 || r.day > today
    ensures Performance(reviews + [r], today) == Performance(reviews, today)
  {
    forall k | 0 <= k < 7
      ensures Performance(reviews + [r], today)[k] == Performance(reviews, today)[k]
    {
      PerformanceAddReview(reviews, r, today, k);
    }
  }
}
