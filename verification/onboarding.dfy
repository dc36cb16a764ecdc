/**
 * The onboarding carousel: the slide index moved by the buttons, the dots, the arrow keys and
 * horizontal swipes, and the persisted flag that onboarding is done.
 */
module Onboarding {

  const SlideCount := 3

  /** A horizontal movement longer than this many pixels is a swipe. */
  const SwipeThreshold: real := 75.0

  datatype Swipe = SwipeNext | SwipePrev | NoSwipe

  /** `handleTouchEnd`'s two tests: leftwards past the threshold is next, rightwards is previous. */
  function SwipeAction(touchStart: real, touchEnd: real): (s: Swipe)
    ensures s == SwipeNext <==> touchStart - touchEnd > SwipeThreshold
    ensures s == SwipePrev <==> touchEnd - touchStart > SwipeThreshold
    ensures s == NoSwipe <==> -SwipeThreshold <= touchStart - touchEnd <= SwipeThreshold
  {
    if touchStart - touchEnd > SwipeThreshold then SwipeNext
    else if touchEnd - touchStart > SwipeThreshold then SwipePrev
    else NoSwipe
  }

  /**
   * A touch that does not move keeps the end point of the previous gesture (0 on a fresh page), so
   * a plain tap right of the threshold on a fresh page reads as a swipe to the next slide.
   */
  lemma FreshTapAdvances(x: real)
    requires x > SwipeThreshold
    ensures SwipeAction(x, 0.0) == SwipeNext
  {
  }

  /** `handleNext`'s slide: one further on, except on the last slide, which completes onboarding instead. */
  function NextSlide(current: int): (r: (int, bool))
    requires 0 <= current < SlideCount
    ensures 0 <= r.0 < SlideCount
    ensures r.1 <==> current == SlideCount - 1
    ensures r.1 ==> r.0 == current
    ensures !r.1 ==> r.0 == current + 1
  {
    if current < SlideCount - 1 then (current + 1, false) else (current, true)
  }

  /** `handlePrev`'s slide: one back, except on the first slide. */
  function PrevSlide(current: int): (r: int)
    requires 0 <= current < SlideCount
    ensures 0 <= r < SlideCount
    ensures current == 0 ==> r == 0
    ensures current > 0 ==> r == current - 1
  {
    if current > 0 then current - 1 else current
  }

  /** Next then previous comes back to a slide that was not the last one. */
  lemma NextThenPrev(current: int)
    requires 0 <= current < SlideCount - 1
    ensures PrevSlide(NextSlide(current).0) == current
  {
  }

  /** Previous then next comes back to a slide that was not the first one. */
  lemma PrevThenNext(current: int)
    requires 0 < current < SlideCount
    ensures NextSlide(PrevSlide(current)).0 == current && !NextSlide(PrevSlide(current)).1
  {
  }

  class OnboardingPage {
    var currentSlide: int
    var touchStart: real
    var touchEnd: real
    /** The `hasOnboarded` entry of local storage. */
    var hasOnboarded: bool

    /** The slide index always names one of the slides. */
    ghost predicate Valid()
      reads this
    {
      0 <= currentSlide < SlideCount
    }

    /** `stored` is what local storage held when the page opened. */
    constructor (stored: bool)
      ensures Valid() && currentSlide == 0 && touchStart == 0.0 && touchEnd == 0.0
      ensures hasOnboarded == stored
    {
      currentSlide := 0;
      touchStart := 0.0;
      touchEnd := 0.0;
      hasOnboarded := stored;
    }

    /** The mount effect: a finished onboarding sends the user straight to sign-in. */
    method Mount() returns (redirect: bool)
      ensures redirect <==> hasOnboarded
    {
      redirect := hasOnboarded;
    }

    /** `completeOnboarding`: the flag is stored; the caller then goes to sign-in. */
    method CompleteOnboarding()
      modifies this`hasOnboarded
      ensures hasOnboarded
    {
      hasOnboarded := true;
    }

    /** `handleNext`: returns whether it completed onboarding (and so left for sign-in). */
    method HandleNext() returns (completed: bool)
      requires Valid()
      modifies this`currentSlide, this`hasOnboarded
      ensures Valid()
      ensures (currentSlide, completed) == NextSlide(old(currentSlide))
      ensures hasOnboarded == (old(hasOnboarded) || completed)
    {
      if currentSlide < SlideCount - 1 {
        currentSlide := currentSlide + 1;
        completed := false;
      } else {
        CompleteOnboarding();
        completed := true;
      }
    }

    /** `handlePrev`. */
    method HandlePrev()
      requires Valid()
      modifies this`currentSlide
      ensures Valid() && currentSlide == PrevSlide(old(currentSlide))
    {
      if currentSlide > 0 {
        currentSlide := currentSlide - 1;
      }
    }

    /** `handleSkip`: completes onboarding from any slide; the slide stays. */
    method HandleSkip()
      requires Valid()
      modifies this`hasOnboarded
      ensures Valid() && hasOnboarded
    {
      CompleteOnboarding();
    }

    /** A pagination dot: there is one per slide. */
    method GoTo(index: int)
      requires Valid() && 0 <= index < SlideCount
      modifies this`currentSlide
      ensures Valid() && currentSlide == index
    {
      currentSlide := index;
    }

    /** `handleTouchStart`: records the start only; the previous end point is kept. */
    method TouchStart(x: real)
      modifies this`touchStart
      ensures touchStart == x
    {
      touchStart := x;
    }

    /** `handleTouchMove`. */
    method TouchMove(x: real)
      modifies this`touchEnd
      ensures touchEnd == x
    {
      touchEnd := x;
    }

    /** `handleTouchEnd`: at most one of next and previous fires; a short movement does nothing. */
    method HandleTouchEnd() returns (completed: bool)
      requires Valid()
      modifies this`currentSlide, this`hasOnboarded
      ensures Valid()
      ensures SwipeAction(touchStart, touchEnd) == SwipeNext ==>
        (currentSlide, completed) == NextSlide(old(currentSlide)) && hasOnboarded == (old(hasOnboarded) || completed)
      ensures SwipeAction(touchStart, touchEnd) == SwipePrev ==>
        currentSlide == PrevSlide(old(currentSlide)) && !completed && hasOnboarded == old(hasOnboarded)
      ensures SwipeAction(touchStart, touchEnd) == NoSwipe ==>
        currentSlide == old(currentSlide) && !completed && hasOnboarded == old(hasOnboarded)
    {
      completed := false;
      if touchStart - touchEnd > SwipeThreshold {
        completed := HandleNext();
      }
      if touchEnd - touchStart > SwipeThreshold {
        HandlePrev();
      }
    }

    /** The arrow keys: right is next, left is previous, other keys do nothing. */
    method KeyDown(key: string) returns (completed: bool)
      requires Valid()
      modifies this`currentSlide, this`hasOnboarded
      ensures Valid()
      ensures key == "ArrowRight" ==>
        (currentSlide, completed) == NextSlide(old(currentSlide)) && hasOnboarded == (old(hasOnboarded) || completed)
      ensures key == "ArrowLeft" ==>
        currentSlide == PrevSlide(old(currentSlide)) && !completed && hasOnboarded == old(hasOnboarded)
      ensures key != "ArrowRight" && key != "ArrowLeft" ==>
        currentSlide == old(currentSlide) && !completed && hasOnboarded == old(hasOnboarded)
    {
      completed := false;
      if key == "ArrowRight" {
        completed := HandleNext();
      }
      if key == "ArrowLeft" {
        HandlePrev();
      }
    }
  }
}
