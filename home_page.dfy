/**
 * The two carousels of `HomePage.ts`. Indices are JavaScript numbers and `%` is JavaScript's
 * remainder, whose sign follows the dividend (Dafny's `%` never returns a negative value).
 */
module HomePage {

  const TopSlides := 2
  const BottomSlides := 5

  /**
   * JavaScript's `a % b` for `b > 0`: the remainder of the division that truncates toward zero. It
   * agrees with the Euclidean remainder on non-negative dividends and is odd in the dividend.
   */
  function JsRem(a: int, b: int): (r: int)
    requires b > 0
    ensures -b < r < b
    ensures a >= 0 ==> r == a % b && r >= 0
    ensures a <= 0 ==> r <= 0
  {
    if a >= 0 then a % b else -((-a) % b)
  }

  /** The sign of the dividend carries over: `(-a) % b == -(a % b)`. */
  lemma JsRemOdd(a: int, b: int)
    requires b > 0
    ensures JsRem(-a, b) == -JsRem(a, b)
  {
  }

  /** `nextTopSlide` */
  function NextTop(x: int): (y: int)
    ensures x >= -1 ==> 0 <= y < TopSlides
  {
    JsRem(x + 1, TopSlides)
  }

  /** `nextBottomSlide` */
  function NextBottom(x: int): (y: int)
    ensures x >= -1 ==> 0 <= y < BottomSlides
    ensures 0 <= x < BottomSlides - 1 ==> y == x + 1
    ensures x == BottomSlides - 1 ==> y == 0
  {
    JsRem(x + 1, BottomSlides)
  }

  /** `previousBottomSlide`: 0 wraps to 4, anything else is decremented (with no lower bound). */
  function PreviousBottom(x: int): (y: int)
    ensures 0 <= x < BottomSlides ==> 0 <= y < BottomSlides
    ensures x == 0 ==> y == BottomSlides - 1
    ensures x != 0 ==> y == x - 1
  {
    if x == 0 then 4 else x - 1
  }

  /** On the two top slides, `nextTopSlide` alternates. */
  lemma TopAlternates(x: int)
    requires 0 <= x < TopSlides
    ensures NextTop(x) == 1 - x && NextTop(NextTop(x)) == x
  {
  }

  /** On the five bottom slides, next and previous undo each other. */
  lemma BottomInverse(x: int)
    requires 0 <= x < BottomSlides
    ensures PreviousBottom(NextBottom(x)) == x
    ensures NextBottom(PreviousBottom(x)) == x
  {
  }

  /** An out-of-range index set by `goToBottomSlide` is not pulled back: below -1 it stays negative. */
  lemma NegativeStaysNegative()
    ensures NextBottom(-7) == -1 && PreviousBottom(-1) == -2
  {
  }

  class HomePageComponent {
    var currentTopSlide: int
    var currentBottomSlide: int

    constructor()
      ensures currentTopSlide == 0 && currentBottomSlide == 0
    {
      currentTopSlide := 0;
      currentBottomSlide := 0;
    }

    method NextTopSlide()
      modifies this
      ensures currentTopSlide == NextTop(old(currentTopSlide)) && currentBottomSlide == old(currentBottomSlide)
    {
      currentTopSlide := JsRem(currentTopSlide + 1, TopSlides);
    }

    /** `goToTopSlide`: the index is taken as given, with no range check. */
    method GoToTopSlide(index: int)
      modifies this
      ensures currentTopSlide == index && currentBottomSlide == old(currentBottomSlide)
    {
      currentTopSlide := index;
    }

    method NextBottomSlide()
      modifies this
      ensures currentBottomSlide == NextBottom(old(currentBottomSlide)) && currentTopSlide == old(currentTopSlide)
    {
      currentBottomSlide := JsRem(currentBottomSlide + 1, BottomSlides);
    }

    method PreviousBottomSlide()
      modifies this
      ensures currentBottomSlide == PreviousBottom(old(currentBottomSlide)) && currentTopSlide == old(currentTopSlide)
    {
      currentBottomSlide := if currentBottomSlide == 0 then 4 else currentBottomSlide - 1;
    }

    /** `goToBottomSlide`: the index is taken as given, with no range check. */
    method GoToBottomSlide(index: int)
      modifies this
      ensures currentBottomSlide == index && currentTopSlide == old(currentTopSlide)
    {
      currentBottomSlide := index;
    }
  }
}
