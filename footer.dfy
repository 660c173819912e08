/** Footer: the page footer's reveal class, which reads both hook outputs. */
module Footer {
  import opened ScrollAnimation
  import PlaceCard

  /** The reveal class of the footer. */
  function AnimationClass(isVisible: bool, scrollDirection: ScrollDirection): (r: string)
    ensures isVisible ==> r == Revealed
    ensures !isVisible && scrollDirection == Up ==> r == "opacity-0 translate-y-16"
    ensures !isVisible && scrollDirection == Down ==> r == "opacity-0 -translate-y-16"
    ensures !isVisible && scrollDirection == None ==> r == "opacity-0 translate-y-16"
  {
    if !isVisible then
      if scrollDirection == Up then "opacity-0 translate-y-16"
      else if scrollDirection == Down then "opacity-0 -translate-y-16"
      else "opacity-0 translate-y-16"
    else
      "opacity-100 translate-y-0"
  }

  /** The footer and a place card pick the same class for every input. */
  lemma AgreesWithPlaceCard(isVisible: bool, scrollDirection: ScrollDirection)
    ensures AnimationClass(isVisible, scrollDirection) == PlaceCard.AnimationClass(isVisible, scrollDirection)
  {
  }

  /** The footer's class list hides it exactly when it is not visible. */
  lemma {:induction false} HiddenIffNotVisible(isVisible: bool, scrollDirection: ScrollDirection)
    ensures Contains(AnimationClass(isVisible, scrollDirection), Hidden) <==> !isVisible
  {
    AgreesWithPlaceCard(isVisible, scrollDirection);
    PlaceCard.HiddenIffNotVisible(isVisible, scrollDirection);
  }
}
