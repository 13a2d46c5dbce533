/**
 * The review session page (app/review/page.tsx): the key-to-quality table,
 * keyboard dispatch, and what a rating does to the session. Rendering is not
 * modelled; the review request's outcome (an OK response, or an error status
 * or network failure) is a boolean parameter.
 */
module ReviewPage {
  import opened Wrappers

  /** A due card as the session holds it. */
  datatype FlashCard = FlashCard(id: string, english: string, spanish: string)

  /** A row of the key-to-quality table. */
  datatype QualityMapping = QualityMapping(quality: int, name: string)

  /** The review request the page sends: `{ cardId, quality }`. */
  datatype Submission = Submission(cardId: string, quality: int)

  /** A keyboard event: its physical `code` and its `key` value. */
  datatype KeyEvent = KeyEvent(code: string, key: string)

  /** The qualities the page can submit: forgot, hard, good, easy. */
  predicate IsOfferedQuality(q: int)
  {
    q == 0 || q == 3 || q == 4 || q == 5
  }

  /** Keys '1' to '4' rate Forgot (0), Hard (3), Good (4) and Easy (5); no other key rates. */
  function QualityMappings(key: string): (m: Option<QualityMapping>)
    ensures m.Some? <==> key in {"1", "2", "3", "4"}
    ensures m.Some? ==> IsOfferedQuality(m.value.quality)
    ensures m.Some? ==> (m.value.quality < 3 <==> key == "1")
  {
    if key == "1" then Some(QualityMapping(0, "Forgot"))
    else if key == "2" then Some(QualityMapping(3, "Hard"))
    else if key == "3" then Some(QualityMapping(4, "Good"))
    else if key == "4" then Some(QualityMapping(5, "Easy"))
    else None
  }

  /** The rating buttons shown under a flipped card, in order, with their shortcut keys. */
  const Buttons: seq<(string, QualityMapping)> := [
    ("1", QualityMapping(0, "Forgot")),
    ("2", QualityMapping(3, "Hard")),
    ("3", QualityMapping(4, "Good")),
    ("4", QualityMapping(5, "Easy"))]

  /** Each button submits the same quality as its shortcut key, and the qualities rise left to right. */
  lemma ButtonsMatchShortcuts()
    ensures forall i :: 0 <= i < |Buttons| ==> QualityMappings(Buttons[i].0) == Some(Buttons[i].1)
    ensures forall i, j :: 0 <= i < j < |Buttons| ==> Buttons[i].1.quality < Buttons[j].1.quality
  {
  }

  /** What a key press does. */
  datatype KeyAction = Ignore | OpenExitDialog | ToggleFlip | Rate(quality: int)

  /**
   * The keyboard dispatch as a decision: nothing without cards; Escape opens
   * the exit dialog and Space flips, flipped or not; a mapped number key rates
   * only while the card is flipped.
   */
  function KeyActionFor(hasCards: bool, isFlipped: bool, ev: KeyEvent): (a: KeyAction)
    ensures !hasCards ==> a == Ignore
    ensures a == OpenExitDialog <==> hasCards && ev.code == "Escape"
    ensures a == ToggleFlip <==> hasCards && ev.code == "Space"
    ensures a.Rate? <==> hasCards && isFlipped && ev.code != "Escape" && ev.code != "Space" && QualityMappings(ev.key).Some?
    ensures a.Rate? ==> a.quality == QualityMappings(ev.key).value.quality && IsOfferedQuality(a.quality)
  {
    if !hasCards then Ignore
    else if ev.code == "Escape" then OpenExitDialog
    else if ev.code == "Space" then ToggleFlip
    else if !isFlipped then Ignore
    else match QualityMappings(ev.key)
      case Some(m) => Rate(m.quality)
      case None => Ignore
  }

  /** Enter does not open the exit dialog (only Escape does), and on a flipped card it does not rate either. */
  lemma EnterIsIgnored(isFlipped: bool)
    ensures KeyActionFor(true, isFlipped, KeyEvent("Enter", "Enter")) == Ignore
  {
  }

  /** The state of a review session. */
  class ReviewSession {
    var cards: seq<FlashCard>
    var currentCardIndex: nat
    var isFlipped: bool
    var showExitDialog: bool

    /** The current card exists whenever there are cards to review. */
    ghost predicate Valid()
      reads this
    {
      cards != [] ==> currentCardIndex < |cards|
    }

    /** How many cards are still to be rated in this session. */
    ghost function Remaining(): nat
      reads this
      requires Valid()
    {
      if cards == [] then 0 else |cards| - currentCardIndex
    }

    /**
     * The page as mounted, after the due cards were fetched once: `fetched` is
     * the `cards` field of the answer, or None when the answer had none or
     * the request failed.
     */
    constructor (fetched: Option<seq<FlashCard>>)
      ensures Valid()
      ensures cards == (if fetched.Some? then fetched.value else [])
      ensures currentCardIndex == 0 && !isFlipped && !showExitDialog
      ensures Remaining() == |cards|
    {
      cards := if fetched.Some? then fetched.value else [];
      currentCardIndex := 0;
      isFlipped := false;
      showExitDialog := false;
    }

    /**
     * Rate the current card. `responseOk` is whether the review request got
     * an OK response. Returns the request sent, if any.
     */
    method HandleQualityRating(quality: int, responseOk: bool) returns (sent: Option<Submission>)
      requires Valid()
      modifies this
      ensures Valid()
      ensures old(cards) == [] ==> sent == None
      ensures old(cards) != [] ==> sent == Some(Submission(old(cards)[old(currentCardIndex)].id, quality))
      ensures old(cards) == [] || !responseOk ==>
                cards == old(cards) && currentCardIndex == old(currentCardIndex) && isFlipped == old(isFlipped)
      ensures old(cards) != [] && responseOk && old(currentCardIndex) < |old(cards)| - 1 ==>
                cards == old(cards) && currentCardIndex == old(currentCardIndex) + 1 && !isFlipped
      ensures old(cards) != [] && responseOk && old(currentCardIndex) == |old(cards)| - 1 ==>
                cards == [] && currentCardIndex == old(currentCardIndex) && isFlipped == old(isFlipped)
      ensures Remaining() == if old(cards) != [] && responseOk then old(Remaining()) - 1 else old(Remaining())
      ensures showExitDialog == old(showExitDialog)
    {
      if |cards| == 0 {
        return None;
      }
      var currentCard := cards[currentCardIndex];
      sent := Some(Submission(currentCard.id, quality));
      if !responseOk {
        return;
      }
      if currentCardIndex < |cards| - 1 {
        currentCardIndex := currentCardIndex + 1;
        isFlipped := false;
      } else {
        cards := [];
      }
    }

    /**
     * Handle a key press. `responseOk` is the outcome of the review request a
     * rating key sends. Returns the request sent, if any.
     */
    method HandleKeyPress(ev: KeyEvent, responseOk: bool) returns (sent: Option<Submission>)
      requires Valid()
      modifies this
      ensures Valid()
      ensures var a := KeyActionFor(old(cards) != [], old(isFlipped), ev);
        match a
        case Ignore =>
          sent == None && cards == old(cards) && currentCardIndex == old(currentCardIndex)
          && isFlipped == old(isFlipped) && showExitDialog == old(showExitDialog)
        case OpenExitDialog =>
          sent == None && cards == old(cards) && currentCardIndex == old(currentCardIndex)
          && isFlipped == old(isFlipped) && showExitDialog
        case ToggleFlip =>
          sent == None && cards == old(cards) && currentCardIndex == old(currentCardIndex)
          && isFlipped == !old(isFlipped) && showExitDialog == old(showExitDialog)
        case Rate(q) =>
          && sent == Some(Submission(old(cards)[old(currentCardIndex)].id, q))
          && (if responseOk && old(currentCardIndex) < |old(cards)| - 1 then
                cards == old(cards) && currentCardIndex == old(currentCardIndex) + 1 && !isFlipped
              else if responseOk then
                cards == [] && currentCardIndex == old(currentCardIndex) && isFlipped == old(isFlipped)
              else
                cards == old(cards) && currentCardIndex == old(currentCardIndex) && isFlipped == old(isFlipped))
          && showExitDialog == old(showExitDialog)
      ensures sent.Some? ==> IsOfferedQuality(sent.value.quality)
    {
      if |cards| == 0 {
        return None;
      }
      if ev.code == "Escape" {
        showExitDialog := true;
        return None;
      }
      if ev.code == "Space" {
        isFlipped := !isFlipped;
        return None;
      }
      if !isFlipped {
        return None;
      }
      var mapping := QualityMappings(ev.key);
      if mapping.Some? {
        sent := HandleQualityRating(mapping.value.quality, responseOk);
      } else {
        sent := None;
      }
    }
  }
}
