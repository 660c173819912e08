/**
 * Header: the page header's reveal class. The header takes only the
 * visibility flag from the hook, so its class cannot depend on the scroll
 * direction.
 */
module Header {
  import opened ScrollAnimation
  import PlaceCard
  import Footer

  /** The reveal class of the header. */
  function AnimationClass(isVisible: bool): (r: string)
    ensures isVisible ==> r == Revealed
    ensures !isVisible ==> r == "opacity-0 translate-y-8"
  {
    if !isVisible then "opacity-0 translate-y-8"
    else "opacity-100 translate-y-0"
  }

  /** Once visible, the header shows the same class as a card and the footer. */
  lemma VisibleClassShared(scrollDirection: ScrollDirection)
    ensures AnimationClass(true) == PlaceCard.AnimationClass(true, scrollDirection)
    ensures AnimationClass(true) == Footer.AnimationClass(true, scrollDirection)
  {
  }

  /** While hidden, the header slides in from a shorter distance than a card does. */
  lemma HiddenClassDiffers(scrollDirection: ScrollDirection)
    ensures AnimationClass(false) != PlaceCard.AnimationClass(false, scrollDirection)
  {
    assert |AnimationClass(false)| < |PlaceCard.AnimationClass(false, scrollDirection)|;
  }

  /** The header's class list hides it exactly when it is not visible. */
  lemma {:induction false} HiddenIffNotVisible(isVisible: bool)
    ensures Contains(AnimationClass(isVisible), Hidden) <==> !isVisible
  {
    if isVisible {
      RevealedIsNotHidden();
    } else {
      assert Hidden <= AnimationClass(isVisible);
    }
  }
}
