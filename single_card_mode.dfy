/**
 * Single-card mode: one card, a click on it is classified into one of five
 * regions, and the difference is shown after a correct click or after the
 * third wrong one.
 */
module SingleCardMode {
  import opened Types

  /** After this many wrong clicks the answer is shown. */
  const MaxErrors: nat := 3

  /**
   * The region of a click at (`x`, `y`) on a card `w` wide and `h` high: the
   * left and right thirds are split at half height into top and bottom, and
   * the middle band, both boundaries included, is the center.
   */
  function ClickRegion(x: real, y: real, w: real, h: real): (q: Quadrant)
    ensures q == TopLeft <==> x < w / 3.0 && y < h / 2.0
    ensures q == BottomLeft <==> x < w / 3.0 && y >= h / 2.0
    ensures q == TopRight <==> x >= w / 3.0 && x > w * 2.0 / 3.0 && y < h / 2.0
    ensures q == BottomRight <==> x >= w / 3.0 && x > w * 2.0 / 3.0 && y >= h / 2.0
    ensures q == Center <==> x >= w / 3.0 && x <= w * 2.0 / 3.0
  {
    if x < w / 3.0 then
      (if y < h / 2.0 then TopLeft else BottomLeft)
    else if x > w * 2.0 / 3.0 then
      (if y < h / 2.0 then TopRight else BottomRight)
    else
      Center
  }

  /** The region on the other side of the card's vertical axis. */
  function Mirror(q: Quadrant): Quadrant
  {
    match q
    case TopLeft => TopRight
    case TopRight => TopLeft
    case BottomLeft => BottomRight
    case BottomRight => BottomLeft
    case Center => Center
  }

  /**
   * The regions are symmetric about the vertical axis: a click at `w - x`
   * lands in the mirror image of the region of a click at `x`. A negative
   * width would let the two outer thirds overlap, so it is excluded.
   */
  lemma MirrorSwapsSides(x: real, y: real, w: real, h: real)
    requires w >= 0.0
    ensures ClickRegion(w - x, y, w, h) == Mirror(ClickRegion(x, y, w, h))
  {
    assert w - x < w / 3.0 <==> x > w * 2.0 / 3.0;
    assert w - x > w * 2.0 / 3.0 <==> x < w / 3.0;
  }

  /** A click counts as correct when it hits the difference's region, and always on EASY. */
  predicate IsCorrect(clicked: Quadrant, location: Quadrant, difficulty: Difficulty): (b: bool)
    ensures difficulty == Easy ==> b
    ensures difficulty != Easy ==> (b <==> clicked == location)
  {
    clicked == location || difficulty == Easy
  }

  /** The state of one single-card round. */
  class SingleRound {
    const difficulty: Difficulty
    var card: Option<Card>
    var loading: bool
    var isFlipped: bool
    var errors: nat
    var feedback: Option<Feedback>
    var showDifference: bool
    /** Whether a click hit the difference. */
    ghost var found: bool

    /**
     * The difference is shown exactly when it was found or the wrong clicks
     * reached the limit, which they never pass; it is found only before that.
     */
    ghost predicate Valid()
      reads this
    {
      && errors <= MaxErrors
      && (showDifference <==> found || errors == MaxErrors)
      && (found ==> errors < MaxErrors)
      && (card.None? ==> !showDifference && errors == 0)
    }

    constructor (difficulty: Difficulty)
      ensures Valid()
      ensures this.difficulty == difficulty
      ensures card == None && loading && !isFlipped
      ensures errors == 0 && feedback == None && !showDifference && !found
    {
      this.difficulty := difficulty;
      card := None;
      loading := true;
      isFlipped := false;
      errors := 0;
      feedback := None;
      showDifference := false;
      found := false;
    }

    /** The buffer's answer arrives: a card is shown, or on a failure the spinner stops with no card. */
    method CardLoaded(r: Outcome<Card>)
      requires Valid()
      requires card == None
      modifies this
      ensures Valid()
      ensures !loading
      ensures card == (if r.Ok? then Some(r.value) else None)
      ensures errors == old(errors) && feedback == old(feedback)
      ensures showDifference == old(showDifference) && found == old(found) && isFlipped == old(isFlipped)
    {
      if r.Ok? {
        card := Some(r.value);
      }
      loading := false;
    }

    /** The flip button shows the other face. */
    method Flip()
      requires Valid()
      modifies this
      ensures Valid()
      ensures isFlipped == !old(isFlipped)
      ensures card == old(card) && errors == old(errors) && feedback == old(feedback)
      ensures showDifference == old(showDifference) && found == old(found) && loading == old(loading)
    {
      isFlipped := !isFlipped;
    }

    /**
     * A click at (`x`, `y`) on the `w` by `h` card. Clicks are ignored with
     * no card or once the difference is shown. A correct click shows the
     * difference; a wrong one adds one error and shows it on the third.
     */
    method HandleCardClick(x: real, y: real, w: real, h: real)
      requires Valid()
      modifies this
      ensures Valid()
      ensures card == old(card) && loading == old(loading) && isFlipped == old(isFlipped)
      ensures old(card).None? || old(showDifference) ==>
        errors == old(errors) && feedback == old(feedback) && showDifference == old(showDifference) && found == old(found)
      ensures old(card).Some? && !old(showDifference) ==>
        var correct := IsCorrect(ClickRegion(x, y, w, h), old(card).value.diffLocation, difficulty);
        && (correct ==> feedback == Some(Success) && showDifference && found && errors == old(errors))
        && (!correct ==> feedback == Some(Failure) && errors == old(errors) + 1 && !found
                         && (showDifference <==> errors == MaxErrors))
    {
      if card.None? || showDifference {
        return;
      }
      var clicked := ClickRegion(x, y, w, h);
      if IsCorrect(clicked, card.value.diffLocation, difficulty) {
        feedback := Some(Success);
        showDifference := true;
        found := true;
      } else {
        var newErrors := errors + 1;
        errors := newErrors;
        feedback := Some(Failure);
        if newErrors >= MaxErrors {
          showDifference := true;
        }
      }
    }

    /**
     * The feedback overlay has finished. Once the difference is shown the
     * round is reported at once, as won exactly when it was found (the
     * component reports two seconds later through a timer it never cancels).
     */
    method HandleFeedbackComplete() returns (report: Option<bool>)
      requires Valid()
      modifies this
      ensures Valid()
      ensures feedback == None
      ensures report.Some? <==> showDifference
      ensures report.Some? ==> (report.value <==> found) && (report.value <==> errors < MaxErrors)
      ensures card == old(card) && errors == old(errors) && loading == old(loading)
      ensures showDifference == old(showDifference) && found == old(found) && isFlipped == old(isFlipped)
    {
      feedback := None;
      if showDifference {
        report := Some(errors < MaxErrors);
      } else {
        report := None;
      }
    }

    /** The next button, shown only with the difference, reports whether the round was won. */
    method NextPressed() returns (success: bool)
      requires Valid()
      requires showDifference
      ensures success <==> found
      ensures success <==> errors < MaxErrors
    {
      success := errors < MaxErrors;
    }
  }

  /**
   * On HARD, three clicks in the top-left corner of a card whose difference
   * is bottom-right: the difference appears only with the third, and the
   * round is then reported lost.
   */
  method ThreeMissesRevealAnswer(c: Card) returns (shown1: bool, shown2: bool, shown3: bool, report: Option<bool>)
    requires c.diffLocation == BottomRight
    ensures !shown1 && !shown2 && shown3
    ensures report == Some(false)
  {
    var round := new SingleRound(Hard);
    round.CardLoaded(Ok(c));
    round.HandleCardClick(0.0, 0.0, 3.0, 2.0);
    shown1 := round.showDifference;
    round.HandleCardClick(0.0, 0.0, 3.0, 2.0);
    shown2 := round.showDifference;
    round.HandleCardClick(0.0, 0.0, 3.0, 2.0);
    shown3 := round.showDifference;
    report := round.HandleFeedbackComplete();
  }
}
