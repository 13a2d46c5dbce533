/**
 * Properties that hold across the three files: what the page submits, what
 * the handler stores, and what the dashboard then shows.
 */
module EndToEnd {
  import opened Wrappers
  import Sm2
  import ReviewRoute
  import DataTable
  import ReviewPage

  /**
   * Of the four rating keys, only '1' (Forgot) is a failed recall: it resets
   * the streak to 0, while '2', '3' and '4' extend it by one.
   */
  lemma OnlyForgotResets(key: string, s: Sm2.Schedule)
    requires ReviewPage.QualityMappings(key).Some?
    ensures var next := Sm2.Step(s, ReviewPage.QualityMappings(key).value.quality);
      (key == "1" ==> next.repetitions == 0 && next.interval == 1 && next.easeFactor == s.easeFactor)
      && (key != "1" ==> next.repetitions == s.repetitions + 1)
  {
  }

  /**
   * Right after a successful review of a stored card, the dashboard shows its
   * new interval: "Tomorrow" for one day, "n days" otherwise; and the quality
   * badge is red only for a failed recall.
   */
  lemma ReviewedCardOnDashboard(c: ReviewRoute.Card, quality: int, now: int)
    requires Sm2.Healthy(ReviewRoute.ScheduleOf(c))
    requires ReviewPage.IsOfferedQuality(quality)
    ensures var r := ReviewRoute.Reviewed(c, quality, now);
      && DataTable.DaysUntilReview(r.nextReview, now)
           == (if r.intervalDays == 1 then DataTable.Tomorrow else DataTable.InDays(r.intervalDays))
      && (DataTable.QualityColor(r.quality) == DataTable.Destructive <==> r.repetitionCount == 0)
  {
    var r := ReviewRoute.Reviewed(c, quality, now);
    Sm2.StepKeepsHealthy(ReviewRoute.ScheduleOf(c), quality);
    DataTable.WholeDaysAhead(now, r.intervalDays);
  }
}
