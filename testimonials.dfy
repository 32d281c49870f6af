/**
 * The testimonial carousel: an index into a fixed list of five entries that
 * wraps around in both directions, the swipe classifier of the drag handler,
 * and the dots that jump straight to an entry.
 */
module Testimonials {

  /** The length of the `testimonials` list. */
  const Count: int := 5

  /** `swipeConfidenceThreshold`. */
  const SwipeThreshold: real := 10000.0

  /** The functional update of `paginate`: add the step, then wrap below 0 and at `Count`. */
  function NextIndex(prevIndex: int, newDirection: int): (r: int)
    ensures 0 <= r < Count
    ensures 0 <= prevIndex + newDirection < Count ==> r == prevIndex + newDirection
  {
    var newIndex := prevIndex + newDirection;
    var newIndex := if newIndex < 0 then Count - 1 else newIndex;
    if newIndex >= Count then 0 else newIndex
  }

  /** The index reached after `n` consecutive `paginate(1)` calls. */
  function Forward(i: int, n: nat): int {
    if n == 0 then i else NextIndex(Forward(i, n - 1), 1)
  }

  /** Stepping past either end wraps to the other end. */
  lemma WrapsAtEnds()
    ensures NextIndex(Count - 1, 1) == 0
    ensures NextIndex(0, -1) == Count - 1
  {
  }

  /** A step forward and a step back, in either order, restore an in-range index. */
  lemma StepsAreInverse(i: int)
    requires 0 <= i < Count
    ensures NextIndex(NextIndex(i, 1), -1) == i
    ensures NextIndex(NextIndex(i, -1), 1) == i
  {
  }

  /** `n` steps forward from an in-range index land on `(i + n) mod Count`. */
  lemma {:induction false} ForwardIsModular(i: int, n: nat)
    requires 0 <= i < Count
    ensures Forward(i, n) == (i + n) % Count
  {
    if n > 0 {
      ForwardIsModular(i, n - 1);
    }
  }

  /** `Count` steps forward come back to the start. */
  lemma FullCycle(i: int)
    requires 0 <= i < Count
    ensures Forward(i, Count as nat) == i
  {
    ForwardIsModular(i, Count as nat);
  }

  function Abs(x: real): real {
    if x < 0.0 then -x else x
  }

  /** `swipePower`: the drag distance, unsigned, times the signed release velocity. */
  function SwipePower(offset: real, velocity: real): real {
    Abs(offset) * velocity
  }

  /** What `onDragEnd` does with a released drag. */
  datatype Swipe = Advance | GoBack | Stay

  function ClassifySwipe(offset: real, velocity: real): (r: Swipe)
    ensures r == Advance <==> SwipePower(offset, velocity) < -SwipeThreshold
    ensures r == GoBack <==> SwipePower(offset, velocity) > SwipeThreshold
    ensures r == Stay <==> -SwipeThreshold <= SwipePower(offset, velocity) <= SwipeThreshold
  {
    var swipe := SwipePower(offset, velocity);
    if swipe < -SwipeThreshold then Advance
    else if swipe > SwipeThreshold then GoBack
    else Stay
  }

  /**
   * Only a fast leftward fling advances and only a fast rightward one goes
   * back; a drag whose distance and speed are each at most 100 leaves the
   * carousel where it is.
   */
  lemma SwipeDirection(offset: real, velocity: real)
    ensures ClassifySwipe(offset, velocity) == Advance ==> velocity < 0.0 && offset != 0.0
    ensures ClassifySwipe(offset, velocity) == GoBack ==> velocity > 0.0 && offset != 0.0
    ensures Abs(offset) <= 100.0 && Abs(velocity) <= 100.0 ==> ClassifySwipe(offset, velocity) == Stay
  {
    if Abs(offset) <= 100.0 && Abs(velocity) <= 100.0 {
      assert Abs(offset) * Abs(velocity) <= 100.0 * 100.0 by {
        assert Abs(offset) * Abs(velocity) <= 100.0 * Abs(velocity);
      }
      assert SwipePower(offset, velocity) == Abs(offset) * Abs(velocity) ||
             SwipePower(offset, velocity) == -(Abs(offset) * Abs(velocity));
    }
  }

  /** The carousel's two state cells. */
  class Carousel {
    var currentIndex: int
    var direction: int

    predicate Valid()
      reads this
    {
      0 <= currentIndex < Count
    }

    constructor ()
      ensures Valid()
      ensures currentIndex == 0 && direction == 0
    {
      currentIndex := 0;
      direction := 0;
    }

    /** `paginate`: record the direction and move the index by it, wrapping around. */
    method Paginate(newDirection: int)
      modifies this
      ensures Valid()
      ensures direction == newDirection
      ensures currentIndex == NextIndex(old(currentIndex), newDirection)
    {
      direction := newDirection;
      var newIndex := currentIndex + newDirection;
      if newIndex < 0 {
        newIndex := Count - 1;
      }
      if newIndex >= Count {
        newIndex := 0;
      }
      currentIndex := newIndex;
    }

    /** `onDragEnd`: page by the swipe's classification, or do nothing. */
    method DragEnd(offset: real, velocity: real)
      requires Valid()
      modifies this
      ensures Valid()
      ensures match ClassifySwipe(offset, velocity)
              case Advance => direction == 1 && currentIndex == NextIndex(old(currentIndex), 1)
              case GoBack => direction == -1 && currentIndex == NextIndex(old(currentIndex), -1)
              case Stay => direction == old(direction) && currentIndex == old(currentIndex)
    {
      var swipe := SwipePower(offset, velocity);
      if swipe < -SwipeThreshold {
        Paginate(1);
      } else if swipe > SwipeThreshold {
        Paginate(-1);
      }
    }

    /**
     * A dot click: jump to `index`, with direction 1 when moving to a higher
     * index and -1 otherwise (including a click on the current dot).
     */
    method SelectDot(index: int)
      requires 0 <= index < Count
      modifies this
      ensures Valid()
      ensures currentIndex == index
      ensures direction == if index > old(currentIndex) then 1 else -1
    {
      direction := if index > currentIndex then 1 else -1;
      currentIndex := index;
    }
  }
}
