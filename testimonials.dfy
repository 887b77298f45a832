/** The landing page's testimonial carousel: a cyclic index over the
    testimonials, moved by the arrow buttons and the indicator dots. */
module Testimonials {

  datatype Testimonial = Testimonial(author: string, position: string)

  const Quotes: seq<Testimonial> := [
    Testimonial("Rajiv Sharma", "CFO, Innovate Solutions Ltd."),
    Testimonial("Priya Patel", "Accounts Manager, Global Traders"),
    Testimonial("Vikram Malhotra", "Founder, TechStart Solutions")]

  /** `nextTestimonial`'s updater: `(i + 1) % n`. */
  function NextIndex(i: nat, n: nat): (r: nat)
    requires n > 0
    ensures r < n
    ensures i < n - 1 ==> r == i + 1
    ensures i == n - 1 ==> r == 0
  {
    (i + 1) % n
  }

  /** `prevTestimonial`'s updater: `(i - 1 + n) % n`; with `i` in range the
      dividend is never negative, so JavaScript's `%` agrees with Dafny's. */
  function PrevIndex(i: nat, n: nat): (r: nat)
    requires n > 0 && i < n
    ensures r < n
    ensures i > 0 ==> r == i - 1
    ensures i == 0 ==> r == n - 1
  {
    (i - 1 + n) % n
  }

  /** The two arrows undo each other. */
  lemma PrevUndoesNext(i: nat, n: nat)
    requires n > 0 && i < n
    ensures PrevIndex(NextIndex(i, n), n) == i
    ensures NextIndex(PrevIndex(i, n), n) == i
  {
  }

  /** `k` presses of the right arrow. */
  function Forward(i: nat, n: nat, k: nat): (r: nat)
    requires n > 0
    ensures k > 0 ==> r < n
  {
    if k == 0 then i else NextIndex(Forward(i, n, k - 1), n)
  }

  /** Within one lap the presses add up, wrapping past the last testimonial once. */
  lemma {:induction false} ForwardWithinLap(i: nat, n: nat, k: nat)
    requires n > 0 && i < n && k <= n
    ensures Forward(i, n, k) == if i + k < n then i + k else i + k - n
  {
    if k > 0 {
      ForwardWithinLap(i, n, k - 1);
    }
  }

  /** Going right `n` times comes back to the starting testimonial. */
  lemma FullCycle(i: nat, n: nat)
    requires n > 0 && i < n
    ensures Forward(i, n, n) == i
  {
    ForwardWithinLap(i, n, n);
  }

  /** The indicator dots shown highlighted for active index `active`. */
  function ActiveIndicators(active: nat, n: nat): set<nat>
  {
    set k: nat | k < n && Highlighted(k, active)
  }

  /** The `index === activeIndex` test of an indicator. */
  predicate Highlighted(index: nat, active: nat)
  {
    index == active
  }

  /** While the index is in range exactly one dot is highlighted, the one at
      the index. */
  lemma ExactlyOneActive(active: nat, n: nat)
    requires active < n
    ensures ActiveIndicators(active, n) == {active}
    ensures |ActiveIndicators(active, n)| == 1
  {
    assert Highlighted(active, active);
  }

  class Carousel {
    var activeIndex: nat

    ghost predicate Valid()
      reads this
    {
      activeIndex < |Quotes|
    }

    constructor ()
      ensures Valid() && activeIndex == 0
    {
      activeIndex := 0;
    }

    method Next()
      requires Valid()
      modifies this
      ensures Valid() && activeIndex == NextIndex(old(activeIndex), |Quotes|)
    {
      activeIndex := (activeIndex + 1) % |Quotes|;
    }

    method Prev()
      requires Valid()
      modifies this
      ensures Valid() && activeIndex == PrevIndex(old(activeIndex), |Quotes|)
    {
      activeIndex := (activeIndex - 1 + |Quotes|) % |Quotes|;
    }

    /** Clicking indicator `index`, one of the dots drawn for the testimonials. */
    method Select(index: nat)
      requires Valid() && index < |Quotes|
      modifies this
      ensures Valid() && activeIndex == index
      ensures ActiveIndicators(activeIndex, |Quotes|) == {index}
    {
      activeIndex := index;
      ExactlyOneActive(index, |Quotes|);
    }
  }

  /** Three presses of the right arrow from any testimonial return to it. */
  method RoundTrip(c: Carousel)
    requires c.Valid()
    modifies c
    ensures c.Valid() && c.activeIndex == old(c.activeIndex)
  {
    ghost var start := c.activeIndex;
    c.Next();
    c.Next();
    c.Next();
    assert c.activeIndex == Forward(start, |Quotes|, 3);
    FullCycle(start, |Quotes|);
  }
}
