/** The hero carousel of the home page (`HomeTab`): a cyclic slide index. */
module HomeTab {

  /** `heroSlides.length` */
  const SlideCount: nat := 3

  /** `prev === n - 1 ? 0 : prev + 1` */
  function Next(i: nat, n: nat): (j: nat)
    requires i < n
    ensures j < n
  {
    if i == n - 1 then 0 else i + 1
  }

  /** `prev === 0 ? n - 1 : prev - 1` */
  function Prev(i: nat, n: nat): (j: nat)
    requires i < n
    ensures j < n
  {
    if i == 0 then n - 1 else i - 1
  }

  /** Forward from the last slide wraps to the first, back from the first wraps to the last. */
  lemma WrapAround(n: nat)
    requires n > 0
    ensures Next(n - 1, n) == 0 && Prev(0, n) == n - 1
  {
  }

  /** Going forward then back, or back then forward, returns to the same slide. */
  lemma NextPrevInverse(i: nat, n: nat)
    requires i < n
    ensures Prev(Next(i, n), n) == i
    ensures Next(Prev(i, n), n) == i
  {
  }

  /** The slide reached after `k` steps forward. */
  function Advance(i: nat, n: nat, k: nat): (j: nat)
    requires i < n
    ensures j < n
  {
    if k == 0 then i else Next(Advance(i, n, k - 1), n)
  }

  /** Steps forward that do not pass the last slide just count up. */
  lemma {:induction false} AdvanceWithin(i: nat, n: nat, k: nat)
    requires i + k < n
    ensures Advance(i, n, k) == i + k
  {
    if k > 0 {
      AdvanceWithin(i, n, k - 1);
    }
  }

  /** `a` steps then `b` steps are `a + b` steps. */
  lemma {:induction false} AdvanceCompose(i: nat, n: nat, a: nat, b: nat)
    requires i < n
    ensures Advance(Advance(i, n, a), n, b) == Advance(i, n, a + b)
  {
    if b > 0 {
      AdvanceCompose(i, n, a, b - 1);
    }
  }

  /** A full round of `n` steps forward returns to the starting slide. */
  lemma FullRound(i: nat, n: nat)
    requires i < n
    ensures Advance(i, n, n) == i
  {
    AdvanceWithin(i, n, n - 1 - i);
    assert Advance(i, n, n - i) == 0;
    AdvanceCompose(i, n, n - i, i);
    if i > 0 {
      AdvanceWithin(0, n, i);
    }
  }

  class Carousel {
    var current: nat

    ghost predicate Valid()
      reads this
    {
      current < SlideCount
    }

    constructor ()
      ensures Valid() && current == 0
    {
      current := 0;
    }

    /** `nextSlide` (right arrow). */
    method NextSlide()
      requires Valid()
      modifies this
      ensures Valid()
      ensures current == Next(old(current), SlideCount)
    {
      current := Next(current, SlideCount);
    }

    /** `prevSlide` (left arrow). */
    method PrevSlide()
      requires Valid()
      modifies this
      ensures Valid()
      ensures current == Prev(old(current), SlideCount)
    {
      current := Prev(current, SlideCount);
    }

    /** A click on dot `index`. */
    method SelectSlide(index: nat)
      requires index < SlideCount
      modifies this
      ensures Valid() && current == index
    {
      current := index;
    }
  }
}
