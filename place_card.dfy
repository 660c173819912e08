/**
 * PlaceCard: a card whose image is shifted by a clamped parallax offset as
 * the page scrolls, and whose reveal class depends on visibility and on the
 * direction of the last scroll.
 */
module PlaceCard {
  import opened ScrollAnimation

  /** Factor applied to the distance between viewport centre and element centre. */
  const Damping: real := 0.15

  /** The stored offset is kept within [-MaxOffset, MaxOffset] pixels. */
  const MaxOffset: real := 30.0

  /** `Math.min` on two numbers. */
  function Min(a: real, b: real): real { if a <= b then a else b }

  /** `Math.max` on two numbers. */
  function Max(a: real, b: real): real { if a >= b then a else b }

  /**
   * The damped distance from the element's vertical centre up to the
   * viewport's vertical centre, before clamping: positive when the element
   * sits above the middle of the window.
   */
  function RawOffset(top: real, height: real, windowHeight: real): (r: real)
    ensures r > 0.0 <==> top + height / 2.0 < windowHeight / 2.0
    ensures r == 0.0 <==> top + height / 2.0 == windowHeight / 2.0
  {
    (windowHeight / 2.0 - (top + height / 2.0)) * Damping
  }

  /** The offset a scroll stores for an element with the given bounding box. */
  function ClampedOffset(top: real, height: real, windowHeight: real): (r: real)
    ensures -MaxOffset <= r <= MaxOffset
    ensures -MaxOffset <= RawOffset(top, height, windowHeight) <= MaxOffset ==>
              r == RawOffset(top, height, windowHeight)
    ensures RawOffset(top, height, windowHeight) >= MaxOffset ==> r == MaxOffset
    ensures RawOffset(top, height, windowHeight) <= -MaxOffset ==> r == -MaxOffset
  {
    Max(-MaxOffset, Min(MaxOffset, RawOffset(top, height, windowHeight)))
  }

  /** An element centred in the window is not shifted. */
  lemma CentredElementHasZeroOffset(top: real, height: real, windowHeight: real)
    requires top + height / 2.0 == windowHeight / 2.0
    ensures ClampedOffset(top, height, windowHeight) == 0.0
  {
  }

  /** Moving the element further down the window never increases its offset. */
  lemma OffsetNonIncreasingInTop(top1: real, top2: real, height: real, windowHeight: real)
    requires top1 <= top2
    ensures ClampedOffset(top2, height, windowHeight) <= ClampedOffset(top1, height, windowHeight)
  {
  }

  /** An element whose centre is 10,000 px below the window's centre saturates at -30. */
  lemma FarBelowCentreSaturates(height: real, windowHeight: real)
    ensures ClampedOffset(windowHeight / 2.0 - height / 2.0 + 10000.0, height, windowHeight) == -MaxOffset
  {
  }

  /** The per-card parallax state: the `parallaxOffset` cell and its scroll handler. */
  class Card {
    var parallaxOffset: real

    /** The offset never leaves the clamping range. */
    ghost predicate Valid()
      reads this
    {
      -MaxOffset <= parallaxOffset <= MaxOffset
    }

    /** Mounting the card: the offset cell starts at 0. */
    constructor ()
      ensures Valid() && parallaxOffset == 0.0
    {
      parallaxOffset := 0.0;
    }

    /**
     * One scroll event (or the eager call at mount). `hasElement` says whether
     * the card's node is attached; `top` and `height` are its bounding box and
     * `windowHeight` the viewport height at that moment.
     */
    method HandleScroll(hasElement: bool, top: real, height: real, windowHeight: real)
      requires Valid()
      modifies this
      ensures Valid()
      ensures hasElement ==> parallaxOffset == ClampedOffset(top, height, windowHeight)
      ensures !hasElement ==> parallaxOffset == old(parallaxOffset)
    {
      if hasElement {
        var elementCenter := top + height / 2.0;
        var offset := (windowHeight / 2.0 - elementCenter) * Damping;
        parallaxOffset := Max(-MaxOffset, Min(MaxOffset, offset));
      }
    }
  }

  /** The reveal class of a card. */
  function AnimationClass(isVisible: bool, scrollDirection: ScrollDirection): (r: string)
    ensures isVisible ==> r == Revealed
    ensures !isVisible && scrollDirection == Down ==> r == "opacity-0 -translate-y-16"
    ensures !isVisible && scrollDirection != Down ==> r == "opacity-0 translate-y-16"
  {
    if !isVisible then
      if scrollDirection == Up then "opacity-0 translate-y-16"
      else if scrollDirection == Down then "opacity-0 -translate-y-16"
      else "opacity-0 translate-y-16"
    else
      "opacity-100 translate-y-0"
  }

  /** A card's class list hides it exactly when it is not visible. */
  lemma {:induction false} HiddenIffNotVisible(isVisible: bool, scrollDirection: ScrollDirection)
    ensures Contains(AnimationClass(isVisible, scrollDirection), Hidden) <==> !isVisible
  {
    if isVisible {
      RevealedIsNotHidden();
    } else {
      assert Hidden <= AnimationClass(isVisible, scrollDirection);
    }
  }
}
