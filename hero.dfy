/** The landing page's hero section: an eight-slide slideshow stepped forwards
    and backwards with wrap-around, and the timer-driven switch between the
    slideshow and the animated hero, which gates the slideshow's auto-advance. */
module Hero {

  /** A slide's picture and heading. */
  datatype Slide = Slide(image: string, title: string)

  const Slides: seq<Slide> := [
    Slide("/images/insa1.png", "Wellcome to INSA Transport Management System"),
    Slide("/images/insa10.jpeg", "Real-Time Fleet Monitoring"),
    Slide("/images/insa13.jpeg", "Smart Route Optimization"),
    Slide("/images/insa14.png", "Compliance & Safety"),
    Slide("/images/insa9.jpeg", "Data-Driven Decisions"),
    Slide("/images/insa17.jpeg", "Integrated Logistics Platform"),
    Slide("/images/insa11.png", "Custom Enterprise Solutions"),
    Slide("/images/insa21.png", "24/7 Operational Support")
  ]

  const SlideCount: nat := 8

  /** The index updater of `nextSlide`. */
  function Next(i: nat): (j: nat)
    ensures j < SlideCount
    ensures i < SlideCount - 1 ==> j == i + 1
    ensures i == SlideCount - 1 ==> j == 0
  {
    (i + 1) % SlideCount
  }

  /** The index updater of `prevSlide`; `i - 1 + 8` is never negative, so the
      remainder agrees with JavaScript's. */
  function Prev(i: nat): (j: nat)
    ensures j < SlideCount
    ensures 0 < i < SlideCount ==> j == i - 1
    ensures i == 0 ==> j == SlideCount - 1
  {
    (i - 1 + SlideCount) % SlideCount
  }

  lemma PrevUndoesNext(i: nat)
    requires i < SlideCount
    ensures Prev(Next(i)) == i
  {
  }

  lemma NextUndoesPrev(i: nat)
    requires i < SlideCount
    ensures Next(Prev(i)) == i
  {
  }

  /** `k` steps forward. */
  function NextN(i: nat, k: nat): nat {
    if k == 0 then i else Next(NextN(i, k - 1))
  }

  /** `k` steps forward from a slide land on slide `(i + k) mod 8`. */
  lemma {:induction false} NextNIsModular(i: nat, k: nat)
    requires i < SlideCount
    ensures NextN(i, k) == (i + k) % SlideCount
  {
    if k > 0 {
      NextNIsModular(i, k - 1);
    }
  }

  /** Eight steps forward come back to the starting slide, and from the first
      slide every slide is reached on the way. */
  lemma {:induction false} FullCycle(i: nat)
    requires i < SlideCount
    ensures NextN(i, SlideCount) == i
    ensures forall j :: 0 <= j < SlideCount ==> NextN(0, j) == j
  {
    NextNIsModular(i, SlideCount);
    forall j | 0 <= j < SlideCount
      ensures NextN(0, j) == j
    {
      NextNIsModular(0, j);
    }
  }

  datatype Direction = Right | Left

  /** The hero's state fields. */
  class HeroSection {
    var currentSlideIndex: nat
    var slideDirection: Direction
    var showSlideshow: bool

    /** The index always names a slide, so `slides[currentSlideIndex]` is defined. */
    predicate Valid()
      reads this
    {
      currentSlideIndex < |Slides|
    }

    constructor ()
      ensures Valid()
      ensures currentSlideIndex == 0 && slideDirection == Right && !showSlideshow
    {
      currentSlideIndex, slideDirection, showSlideshow := 0, Right, false;
    }

    /** The slide on show. */
    function Current(): (sl: Slide)
      reads this
      requires Valid()
      ensures sl in Slides
    {
      Slides[currentSlideIndex]
    }

    method NextSlide()
      requires Valid()
      modifies this
      ensures Valid()
      ensures currentSlideIndex == Next(old(currentSlideIndex)) && slideDirection == Right
      ensures showSlideshow == old(showSlideshow)
    {
      slideDirection := Right;
      currentSlideIndex := (currentSlideIndex + 1) % SlideCount;
    }

    method PrevSlide()
      requires Valid()
      modifies this
      ensures Valid()
      ensures currentSlideIndex == Prev(old(currentSlideIndex)) && slideDirection == Left
      ensures showSlideshow == old(showSlideshow)
    {
      slideDirection := Left;
      currentSlideIndex := (currentSlideIndex - 1 + SlideCount) % SlideCount;
    }

    /** The 15-second interval flips between the slideshow and the animated hero. */
    method ModeTick()
      modifies this
      ensures showSlideshow == !old(showSlideshow)
      ensures currentSlideIndex == old(currentSlideIndex) && slideDirection == old(slideDirection)
    {
      showSlideshow := !showSlideshow;
    }

    /** The 5-second interval: it only exists while the slideshow is on show, so a
        tick outside it changes nothing. */
    method AutoAdvanceTick()
      requires Valid()
      modifies this
      ensures Valid()
      ensures showSlideshow == old(showSlideshow)
      ensures old(showSlideshow) ==> currentSlideIndex == Next(old(currentSlideIndex)) && slideDirection == Right
      ensures !old(showSlideshow) ==> currentSlideIndex == old(currentSlideIndex) && slideDirection == old(slideDirection)
    {
      if showSlideshow {
        NextSlide();
      }
    }
  }

  /** The slideshow is on show after `k` mode ticks from the start exactly when `k` is odd. */
  function ShownAfter(k: nat): bool {
    if k == 0 then false else !ShownAfter(k - 1)
  }

  lemma {:induction false} ShownAfterOddTicks(k: nat)
    ensures ShownAfter(k) <==> k % 2 == 1
  {
    if k > 0 {
      ShownAfterOddTicks(k - 1);
    }
  }

  /** Ticks of the two intervals, in the order they fire. */
  datatype Tick = ModeSwitch | Advance

  /** The slide index after a sequence of ticks: only advances while the slideshow is shown count.
      A `ModeSwitch` tick does what `HeroSection.ModeTick`'s contract states (the
      flag flips, the index stays) and an `Advance` tick what `AutoAdvanceTick`'s
      states, so this composes the two methods' contracts tick by tick. */
  function IndexAfter(i: nat, shown: bool, ticks: seq<Tick>): nat
    decreases |ticks|
  {
    if ticks == [] then i
    else if ticks[0] == ModeSwitch then IndexAfter(i, !shown, ticks[1..])
    else IndexAfter(if shown then Next(i) else i, shown, ticks[1..])
  }

  /** With the hero animation shown and no mode switch, the slide never moves. */
  lemma {:induction false} HiddenSlideshowStandsStill(i: nat, ticks: seq<Tick>)
    requires forall k :: 0 <= k < |ticks| ==> ticks[k] == Advance
    ensures IndexAfter(i, false, ticks) == i
  {
    if ticks != [] {
      HiddenSlideshowStandsStill(i, ticks[1..]);
    }
  }

  /** Every tick sequence keeps the index on a slide. */
  lemma {:induction false} IndexStaysOnASlide(i: nat, shown: bool, ticks: seq<Tick>)
    requires i < SlideCount
    ensures IndexAfter(i, shown, ticks) < SlideCount
    decreases |ticks|
  {
    if ticks != [] {
      if ticks[0] == ModeSwitch {
        IndexStaysOnASlide(i, !shown, ticks[1..]);
      } else {
        IndexStaysOnASlide(if shown then Next(i) else i, shown, ticks[1..]);
      }
    }
  }
}
