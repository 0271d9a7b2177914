/**
 * The hero carousel of the landing page: `currentSlide` indexes the hero
 * images; the arrows, a 5-second timer and the dots below the images update it.
 */
module LandingPage {

  datatype HeroImage = HeroImage(title: string, description: string)

  /** The carousel's images (their URLs are left out). */
  const HeroImages: seq<HeroImage> := [
    HeroImage("Virtual Reality Fashion", "Experience the future of fashion"),
    HeroImage("Fashion Technology", "AI-powered virtual try-on"),
    HeroImage("Smart Shopping", "Try before you buy")
  ]

  /** JavaScript's `%`: the remainder of a division truncated toward zero, with the sign of `a`. */
  function JsRemainder(a: int, n: int): (r: int)
    requires n > 0
    ensures a >= 0 ==> 0 <= r < n
    ensures a < 0 ==> -n < r <= 0
  {
    if a >= 0 then a % n else -((-a) % n)
  }

  /** Reducing a number below twice the modulus takes off at most one modulus. */
  lemma RemainderBelowTwice(a: int, n: int)
    requires n > 0 && 0 <= a < 2 * n
    ensures JsRemainder(a, n) == if a < n then a else a - n
  {
  }

  /** `(prev + 1) % heroImages.length`. */
  function NextIndex(current: int, count: int): (next: int)
    requires count > 0
    ensures 0 <= current ==> 0 <= next < count
  {
    JsRemainder(current + 1, count)
  }

  /** `(prev - 1 + heroImages.length) % heroImages.length`. */
  function PrevIndex(current: int, count: int): (prev: int)
    requires count > 0
    ensures 0 <= current ==> 0 <= prev < count
  {
    JsRemainder(current - 1 + count, count)
  }

  /** Next steps one slide forward and wraps from the last slide to the first. */
  lemma NextIndexSteps(current: int, count: int)
    requires 0 <= current < count
    ensures NextIndex(current, count) == if current + 1 < count then current + 1 else 0
  {
    RemainderBelowTwice(current + 1, count);
  }

  /** Prev steps one slide back and wraps from the first slide to the last. */
  lemma PrevIndexSteps(current: int, count: int)
    requires 0 <= current < count
    ensures PrevIndex(current, count) == if current == 0 then count - 1 else current - 1
  {
    RemainderBelowTwice(current - 1 + count, count);
  }

  lemma PrevFromFirst(count: int)
    requires count > 0
    ensures PrevIndex(0, count) == count - 1
  {
    PrevIndexSteps(0, count);
  }

  lemma NextThenPrev(current: int, count: int)
    requires 0 <= current < count
    ensures PrevIndex(NextIndex(current, count), count) == current
  {
    NextIndexSteps(current, count);
    PrevIndexSteps(NextIndex(current, count), count);
  }

  lemma PrevThenNext(current: int, count: int)
    requires 0 <= current < count
    ensures NextIndex(PrevIndex(current, count), count) == current
  {
    PrevIndexSteps(current, count);
    NextIndexSteps(PrevIndex(current, count), count);
  }

  /** The slide shown after `k` presses of the next arrow (or `k` timer ticks). */
  function NextTimes(k: nat, current: int, count: int): int
    requires count > 0
  {
    if k == 0 then current else NextIndex(NextTimes(k - 1, current, count), count)
  }

  lemma {:induction false} NextTimesAdvances(k: nat, current: int, count: int)
    requires 0 <= current < count && k <= count
    ensures NextTimes(k, current, count) == if current + k < count then current + k else current + k - count
  {
    if k > 0 {
      NextTimesAdvances(k - 1, current, count);
      NextIndexSteps(NextTimes(k - 1, current, count), count);
    }
  }

  /** Going forward through every slide comes back to where it started. */
  lemma NextCycle(current: int, count: int)
    requires 0 <= current < count
    ensures NextTimes(count, current, count) == current
  {
    NextTimesAdvances(count, current, count);
  }

  /** Slide `index` and dot `index` are drawn active exactly when it is the current slide. */
  function SlideActive(index: int, current: int): (active: bool)
    ensures active <==> index == current
  {
    index == current
  }

  function ActiveSlides(current: int, count: int): set<int>
  {
    set index | 0 <= index < count && SlideActive(index, current)
  }

  lemma ExactlyOneActive(current: int, count: int)
    requires 0 <= current < count
    ensures ActiveSlides(current, count) == {current}
    ensures |ActiveSlides(current, count)| == 1
  {
    assert current in ActiveSlides(current, count);
  }

  /** The landing page's `currentSlide` state. */
  class HeroCarousel {
    var currentSlide: int

    ghost predicate Valid()
      reads this
    {
      0 <= currentSlide < |HeroImages|
    }

    constructor ()
      ensures Valid() && currentSlide == 0
    {
      currentSlide := 0;
    }

    /** The right arrow. */
    method NextSlide()
      requires Valid()
      modifies this
      ensures Valid()
      ensures currentSlide == NextIndex(old(currentSlide), |HeroImages|)
    {
      currentSlide := NextIndex(currentSlide, |HeroImages|);
    }

    /** The left arrow. */
    method PrevSlide()
      requires Valid()
      modifies this
      ensures Valid()
      ensures currentSlide == PrevIndex(old(currentSlide), |HeroImages|)
    {
      currentSlide := PrevIndex(currentSlide, |HeroImages|);
    }

    /** One firing of the 5-second interval: the same update as the right arrow. */
    method TimerTick()
      requires Valid()
      modifies this
      ensures Valid()
      ensures currentSlide == NextIndex(old(currentSlide), |HeroImages|)
    {
      currentSlide := (currentSlide + 1) % |HeroImages|;
    }

    /** A click on dot `index`; one dot is drawn per hero image. */
    method GoToSlide(index: int)
      requires 0 <= index < |HeroImages|
      modifies this
      ensures Valid()
      ensures currentSlide == index
    {
      currentSlide := index;
    }

    /** Which slides (equally, which dots) are drawn active. */
    method ActiveIndices() returns (active: set<int>)
      requires Valid()
      ensures active == {currentSlide}
    {
      active := ActiveSlides(currentSlide, |HeroImages|);
      ExactlyOneActive(currentSlide, |HeroImages|);
    }
  }
}
