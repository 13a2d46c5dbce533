/**
 * The display helpers of the dashboard table (app/dashboard/data-table.tsx):
 * the colour of the quality badge, its text, and the "next review" label.
 * Qualities are integers; timestamps are milliseconds.
 */
module DataTable {
  import opened Wrappers
  import Time

  /** The three badge variants the table uses. */
  datatype BadgeVariant = Default | Secondary | Destructive

  /** Colour of the quality badge: good or easy, hard, or forgot/new. */
  function QualityColor(quality: int): (v: BadgeVariant)
    ensures v == Default <==> quality >= 4
    ensures v == Secondary <==> 3 <= quality < 4
    ensures v == Destructive <==> quality < 3
  {
    if quality >= 4 then Default
    else if quality >= 3 then Secondary
    else Destructive
  }

  /** How alarming a variant is, from calm (0) to alarming (2). */
  function Severity(v: BadgeVariant): nat
  {
    match v
    case Default => 0
    case Secondary => 1
    case Destructive => 2
  }

  /** A better quality never gets a more alarming colour. */
  lemma QualityColorMonotone(a: int, b: int)
    requires a <= b
    ensures Severity(QualityColor(b)) <= Severity(QualityColor(a))
  {
  }

  // ---------------------------------------------------------------------------
  // Decimal rendering of integers (a template literal or a React text node).
  // ---------------------------------------------------------------------------

  predicate IsDigit(c: char)
  {
    '0' <= c <= '9'
  }

  function DigitChar(d: int): (c: char)
    requires 0 <= d < 10
    ensures IsDigit(c) && c as int - '0' as int == d
  {
    ('0' as int + d) as char
  }

  /** The value of a string of decimal digits, read left to right. */
  function DecimalValue(s: seq<char>): nat
    requires forall i :: 0 <= i < |s| ==> IsDigit(s[i])
  {
    if s == [] then 0
    else
      assert IsDigit(s[|s| - 1]);
      DecimalValue(s[..|s| - 1]) * 10 + (s[|s| - 1] as int - '0' as int)
  }

  /** The decimal digits of n, without leading zeros. */
  function NatToString(n: nat): (s: string)
    ensures |s| >= 1
    ensures forall i :: 0 <= i < |s| ==> IsDigit(s[i])
    ensures s[0] == '0' ==> s == "0"
    ensures DecimalValue(s) == n
  {
    if n < 10 then [DigitChar(n)]
    else
      var front := NatToString(n / 10);
      var s := front + [DigitChar(n % 10)];
      assert s[..|s| - 1] == front;
      s
  }

  /** The decimal form of an integer, with a leading '-' when it is negative. */
  function IntToString(n: int): (s: string)
    ensures n >= 0 ==> (forall i :: 0 <= i < |s| ==> IsDigit(s[i])) && DecimalValue(s) == n
    ensures n >= 0 ==> |s| >= 1 && (s[0] == '0' ==> s == "0")
    ensures n < 0 ==> |s| >= 2 && s[0] == '-' && (forall i :: 1 <= i < |s| ==> IsDigit(s[i]))
                      && DecimalValue(s[1..]) == -n
    ensures n < 0 ==> s[1] != '0'
  {
    if n < 0 then
      var t := NatToString(-n);
      assert ("-" + t)[1..] == t;
      "-" + t
    else NatToString(n)
  }

  /** The text of the quality badge: `quality || 'New'`, so 0 shows as "New". */
  function QualityBadgeText(quality: int): (s: string)
    ensures s == "New" <==> quality == 0
    ensures 1 <= quality <= 5 ==> s == [DigitChar(quality)]
  {
    if quality == 0 then "New"
    else
      var s := IntToString(quality);
      assert s[0] == '-' || IsDigit(s[0]);
      s
  }

  // ---------------------------------------------------------------------------
  // The "next review" label.
  // ---------------------------------------------------------------------------

  /** `Math.ceil(a / b)` for a positive divisor: the least integer r with a <= r * b. */
  function CeilDiv(a: int, b: int): (r: int)
    requires b > 0
    ensures (r - 1) * b < a <= r * b
  {
    var q := (-a) / b;
    assert -a == b * q + (-a) % b;
    -q
  }

  /** The least integer r with a <= r * b is unique. */
  lemma CeilDivUnique(a: int, b: int, r: int)
    requires b > 0 && (r - 1) * b < a <= r * b
    ensures r == CeilDiv(a, b)
  {
  }

  /** The label of the "Next Review" column. */
  datatype DueLabel = NotReviewed | DueNow | DueToday | Tomorrow | InDays(days: int)
  {
    /**
     * The text shown: a fixed phrase, or the day count's decimal digits
     * followed by " days".
     */
    function Text(): (s: string)
      ensures this == NotReviewed ==> s == "Not reviewed"
      ensures this == DueNow ==> s == "Due now"
      ensures this == DueToday ==> s == "Due today"
      ensures this == Tomorrow ==> s == "Tomorrow"
      ensures InDays? && days >= 0 ==>
                && |s| > 5 && s[|s| - 5..] == " days"
                && (forall i :: 0 <= i < |s| - 5 ==> IsDigit(s[i]))
                && (s[0] == '0' ==> |s| == 6)
                && DecimalValue(s[..|s| - 5]) == days
    {
      match this
      case NotReviewed => "Not reviewed"
      case DueNow => "Due now"
      case DueToday => "Due today"
      case Tomorrow => "Tomorrow"
      case InDays(n) =>
        var digits := IntToString(n);
        var s := digits + " days";
        assert s[..|s| - 5] == digits && s[|s| - 5..] == " days";
        s
    }
  }

  /** Labels with a non-negative day count never share a text: the column tells them apart. */
  lemma {:induction false} TextDistinguishes(a: DueLabel, b: DueLabel)
    requires a.InDays? ==> a.days >= 0
    requires b.InDays? ==> b.days >= 0
    requires a.Text() == b.Text()
    ensures a == b
  {
    var s := a.Text();
    if a.InDays? && b.InDays? {
      assert a.days == DecimalValue(s[..|s| - 5]) == b.days;
    }
  }

  /**
   * The label for a card whose next review is at `nextReview` (None when the
   * card was never reviewed), seen at time `now`. The day count is the
   * ceiling of the difference in days.
   */
  function DaysUntilReview(nextReview: Option<int>, now: int): (due: DueLabel)
    ensures due == NotReviewed <==> nextReview.None?
    ensures due.InDays? ==> due.days >= 2
  {
    match nextReview
    case None => NotReviewed
    case Some(t) =>
      var diffDays := CeilDiv(t - now, Time.MsPerDay);
      if diffDays < 0 then DueNow
      else if diffDays == 0 then DueToday
      else if diffDays == 1 then Tomorrow
      else InDays(diffDays)
  }

  /** "Due now" exactly when the review time is a full day or more in the past. */
  lemma DueNowExactly(t: int, now: int)
    ensures DaysUntilReview(Some(t), now) == DueNow <==> t <= now - Time.MsPerDay
  {
  }

  /**
   * "Due today" exactly when the review time is less than a full day in the
   * past or right now: a card overdue by a few hours is not "Due now".
   */
  lemma DueTodayExactly(t: int, now: int)
    ensures DaysUntilReview(Some(t), now) == DueToday <==> now - Time.MsPerDay < t <= now
  {
  }

  /** "Tomorrow" exactly when the review time is in the coming 24 hours. */
  lemma TomorrowExactly(t: int, now: int)
    ensures DaysUntilReview(Some(t), now) == Tomorrow <==> now < t <= now + Time.MsPerDay
  {
  }

  /** "n days" exactly when the review time falls in the n-th coming day, for n >= 2. */
  lemma InDaysExactly(t: int, now: int, n: int)
    ensures DaysUntilReview(Some(t), now) == InDays(n) <==>
              n >= 2 && now + (n - 1) * Time.MsPerDay < t <= now + n * Time.MsPerDay
  {
    if n >= 2 && now + (n - 1) * Time.MsPerDay < t <= now + n * Time.MsPerDay {
      CeilDivUnique(t - now, Time.MsPerDay, n);
    }
  }

  /** A review time exactly `days` whole days ahead (days >= 1) shows as that many days. */
  lemma WholeDaysAhead(now: int, days: int)
    requires days >= 1
    ensures DaysUntilReview(Some(now + days * Time.MsPerDay), now) == (if days == 1 then Tomorrow else InDays(days))
  {
    CeilDivUnique(days * Time.MsPerDay, Time.MsPerDay, days);
  }
}
