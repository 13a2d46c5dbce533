# Flueo review scheduler: a Dafny model

Flueo is a spaced-repetition flashcard application. A card has an English
side, a Spanish side and a scheduling state: a repetition streak, an interval
in days and an ease factor. Rating a card during review runs the SM-2
scheduler, which produces the card's new state and its next review date.
This project models three files of the application:

- `sm2.dfy`, module `Sm2`: the scheduler `calculateSM2`. Everything is stated against an
  independent decimal reference: the application's formula over `real`, with `Math.round`
  defined as "nearest integer, halves up". The module also covers repeated reviews.
- `review_route.dfy`, module `ReviewRoute`: the `POST /api/cards/review` handler.
  It runs over an abstract card table (`CardStore`, a map from card id to card).
  The request body may be unreadable. The card may be missing. The update may not commit.
- `data_table.dfy`, module `DataTable`: the dashboard helpers. These are the
  quality badge's colour and text, and the "Next Review" label with its
  ceiling-of-days count.
- `review_page.dfy`, module `ReviewPage`: the review session page. It holds
  the key-to-quality table and the keyboard dispatch. Its class `ReviewSession`
  has the page's state fields `cards`, `currentCardIndex`, `isFlipped` and
  `showExitDialog`, and one method per event.
- `end_to_end.dfy`, module `EndToEnd`: properties across the three files.
- `wrappers.dfy`: `Option` and the length of a day in milliseconds.

Representation choices:

- The ease factor is held exactly as integer hundredths: 2.5 is 250 and the floor 1.3 is 130.
  Every constant of the formula is a multiple of 0.01. With d = 5 − quality, the change is
  `10 − d·(8 + 2d)` hundredths.
- `Math.round(interval × ease)` becomes `(interval·easeHundredths + 50) / 100`.
  This is floor(x + ½), which is `Math.round`'s rule: halves round up, towards +∞.
  The lemma `Sm2.RoundedProductRounds` proves it against the real-valued definition.
- Timestamps are integer milliseconds. `setDate(getDate() + n)` is `now + n·86 400 000`.
- Qualities, repetition counts and intervals are unbounded integers. The source's numbers
  are doubles, which hold every integer up to 2^53 exactly. Intervals grow geometrically, so
  they do not stay small: sixteen "Easy" reviews in a row take a reset card to 120 864 680 days
  (`Sm2.SixteenEasyReviews`).
- A JavaScript date holds at most 100 000 000 days either side of the epoch (`Time.IsValidTime`).
  A next review past that range cannot be formatted. The handler's catch then answers 500
  "Internal server error" and writes nothing, and the model does the same
  (`ReviewRoute.LongStreakPassesLastDate`).

Points where the code's behaviour is easy to misread:

- The usual statement of SM-2 leaves the rounding rule open. The code uses `Math.round`, so halves round up.
- One might expect every update to leave an interval of at least one day. The code
  guarantees this only for a card in a reachable state. `Sm2.Healthy` names that state,
  `Sm2.ReplayKeepsHealthy` proves it is kept, and `Sm2.InitialIsHealthy` shows that a card
  reset by the edit handler starts in it. A newly added card takes the database's column
  defaults, which are not part of this model. A stored card with repetitions ≥ 2 and interval 0 would be
  rescheduled for the same day.
- A comment in the page says "Escape or Enter" opens the exit dialog. The code checks
  only Escape, so Enter does nothing (`ReviewPage.EnterIsIgnored`).
- The dashboard badge shows "New" for quality 0. Quality 0 is also what "Forgot"
  submits, so a card that was just forgotten shows "New" (`DataTable.QualityBadgeText`).

## Model

| member | source | states |
|---|---|---|
| `Sm2.CalculateSm2` | app/api/cards/review/route.ts:10-43 | A recall with quality ≥ 3 increments repetitions by exactly one and leaves ease ≥ 1.3. A recall with quality < 3 gives repetitions 0, interval 1 and the ease unchanged. |
| `Sm2.EaseDelta` | app/api/cards/review/route.ts:27 | The ease step before the floor is +0.10 for quality 5, 0 for quality 4 and −0.14 for quality 3. It is never more than +0.10 for quality ≤ 5. |
| `Sm2.SuccessInterval` | app/api/cards/review/route.ts:14-22 | On success the interval is 1 when the prior streak is 0 and 6 when it is 1. Otherwise it is the nearest integer to previous interval × ease, halves up. |
| `Sm2.RoundedProductRounds` | app/api/cards/review/route.ts:21 | The integer rounding equals `Math.round` of the exact decimal product, for every interval and ease. |
| `Sm2.RoundsToUnique` | app/api/cards/review/route.ts:21 | `Math.round`'s defining inequality determines at most one integer, so the interval in the compounding case is fully determined. |
| `Sm2.SuccessEase` | app/api/cards/review/route.ts:27-30 | On success the new ease equals max(1.3, ease + 0.1 − d·(0.08 + 0.02·d)) with d = 5 − quality, computed over the reals. |
| `Sm2.EaseNeverBelowFloor` | app/api/cards/review/route.ts:27-36 | Starting from an ease ≥ 1.3, any review leaves the ease ≥ 1.3. |
| `Sm2.CompoundingNeverShrinks` | app/api/cards/review/route.ts:20-30 | With ease ≥ 1.3 and a non-negative interval, the compounding branch never returns a shorter interval. |
| `Sm2.StepKeepsHealthy` | app/api/cards/review/route.ts:10-43 | One review of a card in a reachable state gives a card in a reachable state: ease ≥ 1.3, non-negative counters, positive interval once recalled. The new interval is at least 1. |
| `Sm2.ReplayKeepsHealthy` | app/api/cards/review/route.ts:10-43 | Any sequence of reviews keeps the state reachable, so ease ≥ 1.3 holds for a card's lifetime. After at least one review the interval is at least one day. |
| `Sm2.InitialIsHealthy` | app/api/cards/review/route.ts:27-30 | The state a card is reset to by the edit handler (`app/api/cards/[id]/route.ts`, lines 22-25: repetitions 0, interval 0, ease 2.5) satisfies the ease floor and the other reachability conditions. |
| `Sm2.SixteenEasyReviews` | app/api/cards/review/route.ts:20-30 | Fifteen "Easy" reviews of a reset card give an interval of 30 216 170 days, and a sixteenth gives 120 864 680 days. |
| `Sm2.WorkedExamples` | app/api/cards/review/route.ts:10-43 | The ratings 5, 4, 3, 1 take a new card through (1, 1, 2.6), (6, 2, 2.6), (16, 3, 2.46) and (1, 0, 2.46). |
| `ReviewRoute.LongStreakPassesLastDate` | app/api/cards/review/route.ts:70-97 | A card rated "Easy" fifteen times in a row and then once more, at any time from the epoch on, gets a next review outside the date range, so `Post` answers 500 and stores nothing. |
| `ReviewRoute.Reviewed` | app/api/cards/review/route.ts:61-84 | The single update keeps both texts and records the quality. The scheduling fields become the scheduler's output. The last review becomes now and the next review is now plus the new interval in days. |
| `ReviewRoute.ReviewedIsLater` | app/api/cards/review/route.ts:70-82 | Reviewing a card in a reachable state keeps it reachable. It schedules the card at least one day after the review. |
| `ReviewRoute.CardStore.Post` | app/api/cards/review/route.ts:45-99 | An unreadable body gives 500 "Internal server error". A missing card gives 404 "Card not found". A review or next-review time outside the date range gives 500 "Internal server error". An uncommitted update gives 500 "Failed to update card". None of these four changes the table. Otherwise exactly that card is replaced by its reviewed form, and the answer echoes the next review and the scheduler's output. Every stored card stays in a reachable state. |
| `DataTable.QualityColor` | app/dashboard/data-table.tsx:49-53 | The colour is "default" iff quality ≥ 4, "secondary" iff 3 ≤ quality < 4, and "destructive" iff quality < 3. |
| `DataTable.QualityColorMonotone` | app/dashboard/data-table.tsx:49-53 | A higher quality never gets a more alarming colour. |
| `DataTable.NatToString` | app/dashboard/data-table.tsx:66 | The rendered day count is a non-empty string of decimal digits with no leading zero, and its decimal value is the number. |
| `DataTable.IntToString` | app/dashboard/data-table.tsx:148 | A non-negative integer renders as a non-empty string of decimal digits, without a leading zero, whose value is the integer. A negative one renders as '-' followed by such digits whose value is its magnitude. |
| `DataTable.QualityBadgeText` | app/dashboard/data-table.tsx:148 | The badge reads "New" iff the quality is 0. Qualities 1 to 5 show as their single digit. |
| `DataTable.CeilDiv` | app/dashboard/data-table.tsx:61 | The day count r is the ceiling: (r − 1)·b < a ≤ r·b. |
| `DataTable.CeilDivUnique` | app/dashboard/data-table.tsx:61 | That inequality determines the day count uniquely. |
| `DataTable.DueLabel.Text` | app/dashboard/data-table.tsx:56-66 | Each fixed label reads as its own phrase: "Not reviewed", "Due now", "Due today", "Tomorrow". An "n days" label reads as decimal digits without a leading zero whose value is n, followed by " days". |
| `DataTable.TextDistinguishes` | app/dashboard/data-table.tsx:56-66 | Two labels with the same text are the same label, so the column's text determines the day count. |
| `DataTable.DaysUntilReview` | app/dashboard/data-table.tsx:55-67 | The label is "Not reviewed" iff there is no next-review time. An "n days" label always has n ≥ 2. |
| `DataTable.DueNowExactly` | app/dashboard/data-table.tsx:58-63 | "Due now" exactly when the review time is a full day or more in the past. |
| `DataTable.DueTodayExactly` | app/dashboard/data-table.tsx:61-64 | "Due today" exactly when the review time is now or less than a full day past. A card a few hours overdue is not "Due now". |
| `DataTable.TomorrowExactly` | app/dashboard/data-table.tsx:61-65 | "Tomorrow" exactly when the review time falls within the next 24 hours. |
| `DataTable.InDaysExactly` | app/dashboard/data-table.tsx:61-66 | "n days" exactly when n ≥ 2 and the review time falls in the n-th coming day. |
| `DataTable.WholeDaysAhead` | app/dashboard/data-table.tsx:58-66 | A review time exactly k ≥ 1 whole days ahead shows "Tomorrow" for k = 1 and "k days" otherwise. |
| `ReviewPage.QualityMappings` | app/review/page.tsx:27-32 | Exactly the keys '1' to '4' are mapped. Each maps to a quality in {0, 3, 4, 5}, and only '1' maps to a failing quality. |
| `ReviewPage.ButtonsMatchShortcuts` | app/review/page.tsx:204-209 | Each rating button submits the same quality as its shortcut key. The qualities rise from left to right. |
| `ReviewPage.KeyActionFor` | app/review/page.tsx:47-73 | With no cards, nothing happens. The exit dialog opens iff there are cards and the key is Escape; the card flips iff there are cards and the key is Space, flipped or not. A key rates iff the card is flipped, the key is neither Escape nor Space, and it is mapped, with the mapped quality. Every other press is ignored. |
| `ReviewPage.EnterIsIgnored` | app/review/page.tsx:51-56 | Enter neither opens the exit dialog nor rates. |
| `ReviewPage.ReviewSession.constructor` | app/review/page.tsx:85-98 | After the due cards are fetched at mount, the session holds them (or none), starts at index 0, unflipped, with the dialog closed. |
| `ReviewPage.ReviewSession.HandleQualityRating` | app/review/page.tsx:100-133 | With no cards nothing is sent or changed. Otherwise the current card's id and the quality are sent. On success the index advances and the card unflips, or on the last card the cards are emptied. On failure cards, index and flip are unchanged. The remaining count drops by exactly one per successful rating, and the index stays in range. |
| `ReviewPage.ReviewSession.HandleKeyPress` | app/review/page.tsx:47-73 | The state changes exactly as `KeyActionFor` decides. Every submitted quality is in {0, 3, 4, 5}. The index stays in range whenever there are cards. |
| `EndToEnd.OnlyForgotResets` | app/review/page.tsx:27-32 | Of the rating keys, only '1' resets the card (streak 0, interval 1, ease kept). The others extend the streak by one. |
| `EndToEnd.ReviewedCardOnDashboard` | app/dashboard/data-table.tsx:55-67 | Right after a review, the dashboard shows the new interval ("Tomorrow" or "n days"). The badge is red exactly when the rating was a failure. |

## Left out

- The database (Supabase), authentication, cookies and HTTP objects are left out. The card table is a map and the update's outcome is a boolean.
- The due-card query (`app/api/cards/due/route.ts`) is left out: owner filter, `next_review ≤ now`, ascending order, limit 20. The database executes it, so there is no code to model.
- The translation route and the add page are left out: a language-model call and an insert, with no logic.
- The card edit and delete handlers are left out. Only the values the edit resets a card to appear, as `Sm2.Initial`.
- JavaScript `Date` semantics are left out beyond the range of representable times. This covers local-calendar `setDate` across daylight-saving changes, the time-zone offset near the range's edges, the ISO text format and its parsing, and an unparsable date string (which would show "NaN days"). The handler calls `new Date()` twice; both readings are the single `now`.
- IEEE-754 double rounding of the ease factor is left out (for example 2.5 + 0.1 is not exact in binary). The ease is exact hundredths here.
- Non-integer or missing qualities and scheduling fields are left out: the source's types allow them, but the page and the reset never produce them.
- `ReviewRoute.CardStore.Post`: a card lookup that fails for reasons other than absence is not modelled; the model's lookup fails only when the id is absent.
- Rendering, toasts, dialogs' own close buttons, router navigation, the card click that flips, the loading flag and the progress percentage are left out.
- React's asynchronous state updates and the memoised key handler's captured state are left out. Each event runs to completion on the current state.
- A key named after an inherited object property (the JavaScript `in` test) is not modelled. No keyboard key has such a name.
