/** The swipe state machine of src/components/home/FeaturedCarousel.tsx:
    a drag is started, tracked and ended, and a drag longer than the
    threshold moves the shown slide by one. Touch and mouse positions are integer
    pixels. */
module Carousel {
  /** The number of featured slides. */
  const FeaturedCount: nat := 5
  /** The drag distance, in pixels, a swipe must exceed. */
  const SwipeThreshold: int := 50

  /** The slide shown after a drag of `diff` pixels (`startX - currentX`,
      positive for a leftward drag) from slide `index` of `count`. */
  function SwipeTarget(index: int, diff: int, count: int): (r: int)
    ensures r == index + 1 <==> diff > SwipeThreshold && index < count - 1
    ensures r == index - 1 <==> !(diff > SwipeThreshold && index < count - 1) && diff < -SwipeThreshold && index > 0
    ensures r == index <==> !(diff > SwipeThreshold && index < count - 1) && !(diff < -SwipeThreshold && index > 0)
    ensures 0 <= index < count ==> 0 <= r < count
  {
    if diff > SwipeThreshold && index < count - 1 then index + 1
    else if diff < -SwipeThreshold && index > 0 then index - 1
    else index
  }

  /** A drag of exactly the threshold either way changes nothing; the
      first slide cannot go back and the last cannot go forward. */
  lemma SwipeEdges(index: int, count: int, diff: int)
    requires 0 <= index < count
    ensures SwipeTarget(index, SwipeThreshold, count) == index
    ensures SwipeTarget(index, -SwipeThreshold, count) == index
    ensures SwipeTarget(0, -diff, count) != -1
    ensures SwipeTarget(count - 1, diff, count) != count
  {
  }

  /** The carousel's state: the shown slide, whether a drag is in progress
      and its offset, and the two position refs. */
  class FeaturedCarousel {
    const count: nat
    var currentIndex: int
    var isDragging: bool
    var dragOffset: int
    var startX: int
    var currentX: int

    /** The shown slide is always one of the slides. */
    ghost predicate Valid()
      reads this
    {
      0 <= currentIndex < count
    }

    constructor ()
      ensures Valid() && count == FeaturedCount
      ensures currentIndex == 0 && !isDragging && dragOffset == 0 && startX == 0 && currentX == 0
    {
      count := FeaturedCount;
      currentIndex := 0;
      isDragging := false;
      dragOffset := 0;
      startX := 0;
      currentX := 0;
    }

    /** `handleStart(clientX)`: a touch or mouse-down begins a drag. */
    method HandleStart(clientX: int)
      requires Valid()
      modifies this
      ensures Valid()
      ensures isDragging && startX == clientX && currentX == clientX
      ensures currentIndex == old(currentIndex) && dragOffset == old(dragOffset)
    {
      isDragging := true;
      startX := clientX;
      currentX := clientX;
    }

    /** `handleMove(clientX)`: ignored unless dragging; otherwise the offset
        follows the finger or mouse. */
    method HandleMove(clientX: int)
      requires Valid()
      modifies this
      ensures Valid()
      ensures !old(isDragging) ==> currentX == old(currentX) && dragOffset == old(dragOffset)
      ensures old(isDragging) ==> currentX == clientX && dragOffset == clientX - startX
      ensures isDragging == old(isDragging) && startX == old(startX) && currentIndex == old(currentIndex)
    {
      if !isDragging {
        return;
      }
      currentX := clientX;
      var diff := currentX - startX;
      dragOffset := diff;
    }

    /** `handleEnd()`: ignored unless dragging; otherwise the drag ends,
        the offset resets and the slide moves by the swipe rule. */
    method HandleEnd()
      requires Valid()
      modifies this
      ensures Valid()
      ensures !old(isDragging) ==> currentIndex == old(currentIndex) && dragOffset == old(dragOffset) && !isDragging
      ensures old(isDragging) ==>
        !isDragging && dragOffset == 0 && currentIndex == SwipeTarget(old(currentIndex), startX - currentX, count)
      ensures startX == old(startX) && currentX == old(currentX)
    {
      if !isDragging {
        return;
      }
      isDragging := false;
      var diff := startX - currentX;
      var threshold := SwipeThreshold;
      if diff > threshold && currentIndex < count - 1 {
        currentIndex := currentIndex + 1;
      } else if diff < -threshold && currentIndex > 0 {
        currentIndex := currentIndex - 1;
      }
      dragOffset := 0;
    }

    /** `handleMouseLeave()`: ends a drag only while one is in progress. */
    method HandleMouseLeave()
      requires Valid()
      modifies this
      ensures Valid()
      ensures !old(isDragging) ==> currentIndex == old(currentIndex) && dragOffset == old(dragOffset) && !isDragging
      ensures old(isDragging) ==>
        !isDragging && dragOffset == 0 && currentIndex == SwipeTarget(old(currentIndex), startX - currentX, count)
      ensures startX == old(startX) && currentX == old(currentX)
    {
      if isDragging {
        HandleEnd();
      }
    }

    /** A click on the dot of slide `index`. */
    method DotClick(index: int)
      requires Valid() && 0 <= index < count
      modifies this
      ensures Valid() && currentIndex == index
      ensures isDragging == old(isDragging) && dragOffset == old(dragOffset)
      ensures startX == old(startX) && currentX == old(currentX)
    {
      currentIndex := index;
    }
  }

  /** A full swipe: press at `from`, move to `to`, release. The slide
      advances for a leftward drag of more than 50 pixels and goes back for
      a rightward one, within the bounds. */
  method Swipe(c: FeaturedCarousel, from: int, to: int)
    requires c.Valid()
    modifies c
    ensures c.Valid() && !c.isDragging && c.dragOffset == 0
    ensures c.currentIndex == SwipeTarget(old(c.currentIndex), from - to, c.count)
  {
    c.HandleStart(from);
    c.HandleMove(to);
    c.HandleEnd();
  }
}
