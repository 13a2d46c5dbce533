/**
 * The SM-2 review scheduler (`calculateSM2` in app/api/cards/review/route.ts).
 *
 * The ease factor is a decimal number in the application (2.5 for a new card,
 * floor 1.3, steps that are multiples of 0.01). Here it is held exactly as an
 * integer number of hundredths, so 2.5 is 250 and the floor 1.3 is 130. The
 * decimal formula of the application is kept as an independent reference over
 * `real` (`SuccessEaseSpec`, `RoundsTo`), and the lemmas below prove that the
 * integer scheduler computes exactly what that formula says.
 */
module Sm2 {

  /** The lowest ease factor a successful recall can leave, 1.3, in hundredths. */
  const EaseFloor: int := 130

  /** The ease factor of a reset card, 2.5, in hundredths. */
  const InitialEase: int := 250

  /** The scheduling state of a card: interval in days, streak of successful recalls, ease in hundredths. */
  datatype Schedule = Schedule(interval: int, repetitions: int, easeFactor: int)

  /** A card whose progress the edit handler reset: no repetitions, interval 0, ease 2.5. */
  const Initial: Schedule := Schedule(0, 0, InitialEase)

  /** The ease factor as the decimal number the application stores. */
  function EaseValue(hundredths: int): (e: real)
    ensures e * 100.0 == hundredths as real
  {
    hundredths as real / 100.0
  }

  /**
   * The ease change of a successful recall, in hundredths, before the floor:
   * 0.1 - d * (0.08 + d * 0.02) with d = 5 - quality, multiplied by 100.
   */
  function EaseDelta(quality: int): (delta: int)
    ensures quality == 5 ==> delta == 10
    ensures quality == 4 ==> delta == 0
    ensures quality == 3 ==> delta == -14
    ensures quality <= 5 ==> delta <= 10
  {
    var d := 5 - quality;
    10 - d * (8 + 2 * d)
  }

  /**
   * `Math.round(interval * ease)` with the ease in hundredths: the nearest
   * integer to interval * ease / 100, halves rounded up (towards +infinity),
   * which is floor(interval * ease / 100 + 1/2).
   */
  function RoundedProduct(interval: int, easeHundredths: int): int
  {
    (interval * easeHundredths + 50) / 100
  }

  /** The new schedule after a review rated `quality`. */
  function CalculateSm2(quality: int, repetitions: int, previousInterval: int, previousEase: int): (r: Schedule)
    ensures quality >= 3 ==> r.repetitions == repetitions + 1 && r.easeFactor >= EaseFloor
    ensures quality < 3 ==> r.repetitions == 0 && r.interval == 1 && r.easeFactor == previousEase
  {
    if quality >= 3 then
      var interval :=
        if repetitions == 0 then 1
        else if repetitions == 1 then 6
        else RoundedProduct(previousInterval, previousEase);
      var ease := previousEase + EaseDelta(quality);
      Schedule(interval, repetitions + 1, if ease < EaseFloor then EaseFloor else ease)
    else
      Schedule(1, 0, previousEase)
  }

  /** One review applied to a schedule. */
  function Step(s: Schedule, quality: int): Schedule
  {
    CalculateSm2(quality, s.repetitions, s.interval, s.easeFactor)
  }

  /** The schedule after a sequence of reviews, applied in order. */
  function Replay(s: Schedule, qualities: seq<int>): Schedule
    decreases |qualities|
  {
    if qualities == [] then s else Replay(Step(s, qualities[0]), qualities[1..])
  }

  // ---------------------------------------------------------------------------
  // The decimal reference: the formula as the application writes it, over reals.
  // ---------------------------------------------------------------------------

  function MaxReal(a: real, b: real): real
  {
    if a >= b then a else b
  }

  /** max(1.3, ease + (0.1 - (5 - q) * (0.08 + (5 - q) * 0.02))) */
  function SuccessEaseSpec(quality: int, ease: real): real
  {
    var d := (5 - quality) as real;
    MaxReal(1.3, ease + (0.1 - d * (0.08 + d * 0.02)))
  }

  /** `Math.round(x) == n`: n is the integer nearest to x, a half rounding up. */
  ghost predicate RoundsTo(x: real, n: int)
  {
    n as real - 0.5 <= x < n as real + 0.5
  }

  lemma RoundsToUnique(x: real, n: int, m: int)
    requires RoundsTo(x, n) && RoundsTo(x, m)
    ensures n == m
  {
  }

  lemma ProductAsReal(a: int, b: int)
    ensures (a * b) as real == a as real * b as real
  {
  }

  /** RoundedProduct is Math.round of the exact decimal product interval * ease. */
  lemma RoundedProductRounds(interval: int, easeHundredths: int)
    ensures RoundsTo(interval as real * EaseValue(easeHundredths), RoundedProduct(interval, easeHundredths))
  {
    var p := interval * easeHundredths;
    var n := RoundedProduct(interval, easeHundredths);
    assert 100 * n <= p + 50 < 100 * n + 100;
    ProductAsReal(interval, easeHundredths);
    calc {
      interval as real * EaseValue(easeHundredths);
      interval as real * easeHundredths as real / 100.0;
      p as real / 100.0;
    }
  }

  /** The integer ease step is the decimal formula of the application, floor included. */
  lemma {:induction false} SuccessEase(quality: int, repetitions: int, previousInterval: int, previousEase: int)
    requires quality >= 3
    ensures EaseValue(CalculateSm2(quality, repetitions, previousInterval, previousEase).easeFactor)
         == SuccessEaseSpec(quality, EaseValue(previousEase))
  {
    var d := 5 - quality;
    ProductAsReal(d, d);
    var delta := EaseDelta(quality);
    assert delta == 10 - 8 * d - 2 * (d * d);
    var dr := d as real;
    assert dr * (0.08 + dr * 0.02) == 0.08 * dr + 0.02 * (d * d) as real;
    assert EaseValue(previousEase + delta) == EaseValue(previousEase) + (0.1 - dr * (0.08 + dr * 0.02));
  }

  /**
   * The interval after a successful recall: 1 day after a first success, 6 days
   * after a second, and otherwise Math.round(previous interval * ease).
   */
  lemma SuccessInterval(quality: int, repetitions: int, previousInterval: int, previousEase: int)
    requires quality >= 3
    ensures var r := CalculateSm2(quality, repetitions, previousInterval, previousEase);
      && (repetitions == 0 ==> r.interval == 1)
      && (repetitions == 1 ==> r.interval == 6)
      && (repetitions != 0 && repetitions != 1 ==>
            RoundsTo(previousInterval as real * EaseValue(previousEase), r.interval))
  {
    RoundedProductRounds(previousInterval, previousEase);
  }

  /** A successful recall never lowers the ease below 1.3; a failure leaves it as it was. */
  lemma EaseNeverBelowFloor(quality: int, repetitions: int, previousInterval: int, previousEase: int)
    requires previousEase >= EaseFloor
    ensures EaseValue(CalculateSm2(quality, repetitions, previousInterval, previousEase).easeFactor) >= 1.3
  {
  }

  /**
   * With an ease of at least 1.3, the compounding branch never shortens the
   * interval: Math.round(i * e) >= i for i >= 0.
   */
  lemma CompoundingNeverShrinks(quality: int, repetitions: int, previousInterval: int, previousEase: int)
    requires quality >= 3 && repetitions != 0 && repetitions != 1
    requires previousInterval >= 0 && previousEase >= EaseFloor
    ensures CalculateSm2(quality, repetitions, previousInterval, previousEase).interval >= previousInterval
  {
    assert previousInterval * previousEase >= previousInterval * EaseFloor;
  }

  /**
   * The state every stored card is in: the ease is at least 1.3, the counters
   * are non-negative, and a card that has been recalled has a positive interval.
   */
  ghost predicate Healthy(s: Schedule)
  {
    && s.easeFactor >= EaseFloor
    && s.repetitions >= 0
    && s.interval >= 0
    && (s.repetitions > 0 ==> s.interval >= 1)
  }

  /** A review of a healthy card yields a healthy card that is due at least one day later. */
  lemma StepKeepsHealthy(s: Schedule, quality: int)
    requires Healthy(s)
    ensures Healthy(Step(s, quality)) && Step(s, quality).interval >= 1
  {
    if quality >= 3 && s.repetitions != 0 && s.repetitions != 1 {
      CompoundingNeverShrinks(quality, s.repetitions, s.interval, s.easeFactor);
    }
  }

  /**
   * Any sequence of reviews starting from a healthy card (in particular from a
   * new one) keeps it healthy, so "ease >= 1.3" holds for the card's lifetime,
   * and after at least one review its interval is at least one day.
   */
  lemma {:induction false} ReplayKeepsHealthy(s: Schedule, qualities: seq<int>)
    requires Healthy(s)
    ensures Healthy(Replay(s, qualities))
    ensures qualities != [] ==> Replay(s, qualities).interval >= 1
    decreases |qualities|
  {
    if qualities != [] {
      StepKeepsHealthy(s, qualities[0]);
      ReplayKeepsHealthy(Step(s, qualities[0]), qualities[1..]);
      if qualities[1..] == [] {
        assert Replay(s, qualities) == Step(s, qualities[0]);
      }
    }
  }

  /** n reviews in a row, all rated "Easy" (quality 5). */
  function EasyStreak(n: nat): (qs: seq<int>)
    ensures |qs| == n && forall i :: 0 <= i < n ==> qs[i] == 5
  {
    seq(n, _ => 5)
  }

  /** Reviewing once more after an "Easy" streak is one more step of the scheduler. */
  lemma {:induction false} ReplayEasySnoc(s: Schedule, n: nat)
    ensures Replay(s, EasyStreak(n + 1)) == Step(Replay(s, EasyStreak(n)), 5)
    decreases n
  {
    assert EasyStreak(n + 1)[1..] == EasyStreak(n);
    if n == 0 {
      assert EasyStreak(0) == [];
    } else {
      assert EasyStreak(n)[1..] == EasyStreak(n - 1);
      ReplayEasySnoc(Step(s, 5), n - 1);
    }
  }

  /**
   * Intervals grow geometrically: fifteen "Easy" reviews of a reset card give
   * 30 216 170 days, and a sixteenth gives 120 864 680 days, more than
   * 100 000 000 days.
   */
  lemma SixteenEasyReviews()
    ensures Replay(Initial, EasyStreak(15)).interval == 30216170
    ensures Replay(Initial, EasyStreak(16)) == Step(Replay(Initial, EasyStreak(15)), 5)
    ensures Replay(Initial, EasyStreak(16)).interval == 120864680
  {
    assert EasyStreak(0) == [];
    EasyStep(0, Schedule(0, 0, 250), Schedule(1, 1, 260));
    EasyStep(1, Schedule(1, 1, 260), Schedule(6, 2, 270));
    EasyStep(2, Schedule(6, 2, 270), Schedule(16, 3, 280));
    EasyStep(3, Schedule(16, 3, 280), Schedule(45, 4, 290));
    EasyStep(4, Schedule(45, 4, 290), Schedule(131, 5, 300));
    EasyStep(5, Schedule(131, 5, 300), Schedule(393, 6, 310));
    EasyStep(6, Schedule(393, 6, 310), Schedule(1218, 7, 320));
    EasyStep(7, Schedule(1218, 7, 320), Schedule(3898, 8, 330));
    EasyStep(8, Schedule(3898, 8, 330), Schedule(12863, 9, 340));
    EasyStep(9, Schedule(12863, 9, 340), Schedule(43734, 10, 350));
    EasyStep(10, Schedule(43734, 10, 350), Schedule(153069, 11, 360));
    EasyStep(11, Schedule(153069, 11, 360), Schedule(551048, 12, 370));
    EasyStep(12, Schedule(551048, 12, 370), Schedule(2038878, 13, 380));
    EasyStep(13, Schedule(2038878, 13, 380), Schedule(7747736, 14, 390));
    EasyStep(14, Schedule(7747736, 14, 390), Schedule(30216170, 15, 400));
    EasyStep(15, Schedule(30216170, 15, 400), Schedule(120864680, 16, 410));
  }

  /** One more "Easy" review of a reset card, from a known state to the next. */
  lemma EasyStep(k: nat, a: Schedule, b: Schedule)
    requires Replay(Initial, EasyStreak(k)) == a
    requires Step(a, 5) == b
    ensures Replay(Initial, EasyStreak(k + 1)) == b
  {
    ReplayEasySnoc(Initial, k);
  }

  lemma InitialIsHealthy()
    ensures Healthy(Initial) && EaseValue(Initial.easeFactor) == 2.5
  {
  }

  /** The four worked examples of a card's first reviews: 5, 4, 3 and then 1. */
  lemma WorkedExamples()
    ensures CalculateSm2(5, 0, 0, 250) == Schedule(1, 1, 260)
    ensures CalculateSm2(4, 1, 1, 260) == Schedule(6, 2, 260)
    ensures CalculateSm2(3, 2, 6, 260) == Schedule(16, 3, 246)
    ensures CalculateSm2(1, 3, 16, 246) == Schedule(1, 0, 246)
  {
  }
}
