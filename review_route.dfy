/**
 * The `POST` handler of app/api/cards/review/route.ts: look the card up, run
 * the scheduler, write every reviewed field in one update, and answer.
 *
 * The database is a map from card id to card; whether the update commits is
 * a parameter; the clock is a parameter `now` in milliseconds.
 */
module ReviewRoute {
  import opened Wrappers
  import Time
  import Sm2

  type CardId = string

  /** A stored card. Timestamps are milliseconds; the ease factor is in hundredths. */
  datatype Card = Card(
    english: string,
    spanish: string,
    quality: int,
    repetitionCount: int,
    intervalDays: int,
    easinessFactor: int,
    lastReviewDate: Option<int>,
    nextReview: Option<int>)

  /** The body of the request: which card, and the recall quality (0 to 5). */
  datatype ReviewRequest = ReviewRequest(cardId: CardId, quality: int)

  /**
   * The handler's answer: an error status with its message, or status 200 with
   * `success: true`, the next review time and the three scheduler outputs.
   */
  datatype Response =
    | Failed(status: int, error: string)
    | Succeeded(nextReview: int, result: Sm2.Schedule)

  /** The scheduling state a card holds. */
  function ScheduleOf(c: Card): Sm2.Schedule
  {
    Sm2.Schedule(c.intervalDays, c.repetitionCount, c.easinessFactor)
  }

  /** `now` plus a number of whole days. */
  function AddDays(now: int, days: int): int
  {
    now + days * Time.MsPerDay
  }

  /**
   * The card as the single update leaves it: the texts are kept, the quality
   * is recorded, the three scheduling fields take the scheduler's output, the
   * last review is now, and the next review is now plus the new interval.
   */
  function Reviewed(c: Card, quality: int, now: int): (r: Card)
    ensures r.english == c.english && r.spanish == c.spanish
    ensures r.quality == quality
    ensures ScheduleOf(r) == Sm2.Step(ScheduleOf(c), quality)
    ensures r.lastReviewDate == Some(now)
    ensures r.nextReview.Some? && r.nextReview.value - now == r.intervalDays * Time.MsPerDay
  {
    var s := Sm2.CalculateSm2(quality, c.repetitionCount, c.intervalDays, c.easinessFactor);
    Card(c.english, c.spanish, quality, s.repetitions, s.interval, s.easeFactor, Some(now), Some(AddDays(now, s.interval)))
  }

  /**
   * Reviewing a healthy card leaves it healthy and schedules it strictly after
   * the review: the next review is at least one day after the last one.
   */
  lemma ReviewedIsLater(c: Card, quality: int, now: int)
    requires Sm2.Healthy(ScheduleOf(c))
    ensures Sm2.Healthy(ScheduleOf(Reviewed(c, quality, now)))
    ensures Reviewed(c, quality, now).nextReview.value >= now + Time.MsPerDay
  {
    Sm2.StepKeepsHealthy(ScheduleOf(c), quality);
  }

  /**
   * A card that was rated "Easy" fifteen times in a row, rated "Easy" once more
   * at any time from the epoch on, would be due after the last representable
   * date, so its review fails with 500 and is not stored.
   */
  lemma LongStreakPassesLastDate(c: Card, now: int)
    requires ScheduleOf(c) == Sm2.Replay(Sm2.Initial, Sm2.EasyStreak(15))
    requires now >= 0
    ensures !Time.IsValidTime(Reviewed(c, 5, now).nextReview.value)
  {
    Sm2.SixteenEasyReviews();
    assert Sm2.Replay(Sm2.Initial, Sm2.EasyStreak(16)).interval
        == Sm2.Step(Sm2.Replay(Sm2.Initial, Sm2.EasyStreak(15)), 5).interval;
  }

  /** The card table. */
  class CardStore {
    var cards: map<CardId, Card>

    constructor (initial: map<CardId, Card>)
      ensures cards == initial
    {
      cards := initial;
    }

    /** Every stored card is in a state the scheduler can produce. */
    ghost predicate AllHealthy()
      reads this
    {
      forall id :: id in cards ==> Sm2.Healthy(ScheduleOf(cards[id]))
    }

    /**
     * Handle one review submission. `request` is None when the body cannot be
     * read; `updateCommits` says whether the database accepts the update.
     */
    method Post(request: Option<ReviewRequest>, now: int, updateCommits: bool) returns (response: Response)
      modifies this
      ensures request.None? ==> response == Failed(500, "Internal server error") && cards == old(cards)
      ensures request.Some? && request.value.cardId !in old(cards) ==>
                response == Failed(404, "Card not found") && cards == old(cards)
      ensures request.Some? && request.value.cardId in old(cards) ==>
                var id := request.value.cardId;
                var updated := Reviewed(old(cards)[id], request.value.quality, now);
                if !Time.IsValidTime(now) || !Time.IsValidTime(updated.nextReview.value) then
                  response == Failed(500, "Internal server error") && cards == old(cards)
                else if !updateCommits then
                  response == Failed(500, "Failed to update card") && cards == old(cards)
                else
                  && cards == old(cards)[id := updated]
                  && response == Succeeded(updated.nextReview.value, ScheduleOf(updated))
      ensures old(AllHealthy()) ==> AllHealthy()
    {
      if request.None? {
        return Failed(500, "Internal server error");
      }
      var body := request.value;
      if body.cardId !in cards {
        return Failed(404, "Card not found");
      }
      var card := cards[body.cardId];
      var sm2Result := Sm2.CalculateSm2(body.quality, card.repetitionCount, card.intervalDays, card.easinessFactor);
      var nextReview := AddDays(now, sm2Result.interval);
      // Formatting a date outside the representable range throws, and the
      // handler's catch answers 500 before the update is sent.
      if !Time.IsValidTime(now) || !Time.IsValidTime(nextReview) {
        return Failed(500, "Internal server error");
      }
      if !updateCommits {
        return Failed(500, "Failed to update card");
      }
      var updated := Card(card.english, card.spanish, body.quality, sm2Result.repetitions, sm2Result.interval,
                          sm2Result.easeFactor, Some(now), Some(nextReview));
      assert updated == Reviewed(card, body.quality, now);
      if old(AllHealthy()) {
        ReviewedIsLater(card, body.quality, now);
      }
      cards := cards[body.cardId := updated];
      response := Succeeded(nextReview, sm2Result);
    }
  }
}
