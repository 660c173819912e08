/**
 * The interface of the scroll-visibility hook that PlaceCard, Footer and
 * Header import. The hook itself is not part of this model: its outputs,
 * a visibility flag and the page's scroll direction, are inputs of the
 * functions that pick a reveal class.
 */
module ScrollAnimation {

  /** Direction of the most recent page scroll, as reported by the hook. */
  datatype ScrollDirection = None | Up | Down

  /** The class list shown once an element is revealed (all three components). */
  const Revealed: string := "opacity-100 translate-y-0"

  /** The class that hides an element before it is revealed. */
  const Hidden: string := "opacity-0"

  /** `t` occurs somewhere in `s` as a contiguous run of characters. */
  predicate Contains(s: string, t: string)
    decreases |s|
  {
    t <= s || (|s| > 0 && Contains(s[1..], t))
  }

  /** A string that lacks the first character of `t` cannot contain `t`. */
  lemma {:induction false} AbsentFirstChar(s: string, t: string)
    requires |t| > 0 && t[0] !in s
    ensures !Contains(s, t)
    decreases |s|
  {
    if |s| > 0 {
      assert s[0] != t[0];
      AbsentFirstChar(s[1..], t);
    }
  }

  /** The revealed class list does not mention the hiding class. */
  lemma {:induction false} RevealedIsNotHidden()
    ensures !Contains(Revealed, Hidden)
  {
    assert Revealed[8] != Hidden[8];
    AbsentFirstChar(Revealed[1..], Hidden);
  }
}
