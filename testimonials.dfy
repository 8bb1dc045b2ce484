/**
 * The testimonial carousel (`animated-testimonials.tsx`): the active index
 * that the arrows and the autoplay interval move around a deck of `n` cards,
 * and the pure rules that place each card (whether it is active, its tilt
 * and its stacking order).
 */
module Testimonials {

  /** `handleNext`'s update, `(active + 1) % n`: the next card, wrapping from the last to the first. */
  function Next(active: nat, n: nat): (r: nat)
    requires n > 0 && active < n
    ensures r < n
    ensures active + 1 < n ==> r == active + 1
    ensures active + 1 == n ==> r == 0
  {
    (active + 1) % n
  }

  /** `handlePrev`'s update, `(active - 1 + n) % n`: the previous card, wrapping from the first to the last. */
  function Prev(active: nat, n: nat): (r: nat)
    requires n > 0 && active < n
    ensures r < n
    ensures active > 0 ==> r == active - 1
    ensures active == 0 ==> r == n - 1
  {
    (active - 1 + n) % n
  }

  /** `Prev` undoes `Next` and `Next` undoes `Prev`. */
  lemma PrevNextInverse(active: nat, n: nat)
    requires n > 0 && active < n
    ensures Prev(Next(active, n), n) == active
    ensures Next(Prev(active, n), n) == active
  {
  }

  /** `k` presses of the next arrow (or `k` autoplay ticks). */
  function NextN(active: nat, n: nat, k: nat): (r: nat)
    requires n > 0 && active < n
    ensures r < n
  {
    if k == 0 then active else Next(NextN(active, n, k - 1), n)
  }

  /** Up to a full tour, `k` steps forward land `k` cards on, wrapping once past the end. */
  lemma {:induction false} NextNOffset(active: nat, n: nat, k: nat)
    requires n > 0 && active < n && k <= n
    ensures NextN(active, n, k) == if active + k < n then active + k else active + k - n
  {
    if k > 0 {
      NextNOffset(active, n, k - 1);
    }
  }

  /** A full tour of `n` steps returns to the starting card. */
  lemma FullTour(active: nat, n: nat)
    requires n > 0 && active < n
    ensures NextN(active, n, n) == active
  {
    NextNOffset(active, n, n);
  }

  /** `isActive(index)` */
  predicate IsActive(index: nat, active: nat) {
    index == active
  }

  /** Exactly one card of the deck is active. */
  lemma ExactlyOneActive(active: nat, n: nat)
    requires active < n
    ensures (set i | 0 <= i < n && IsActive(i, active)) == {active}
  {
  }

  /** The fixed tilt list of `getRotationForIndex`. */
  const Rotations: seq<int> := [-8, -4, 0, 4, 8, -6, 2, -2, 6, -10]

  /** `getRotationForIndex(index)`: the tilt of card `index`, read cyclically from the ten-entry list. */
  function RotationFor(index: nat): (r: int)
    ensures r in Rotations
    ensures -10 <= r <= 8
  {
    Rotations[index % |Rotations|]
  }

  /** Tilts repeat every ten cards. */
  lemma RotationPeriodic(index: nat)
    ensures RotationFor(index + 10) == RotationFor(index)
  {
    assert (index + 10) % 10 == index % 10;
  }

  /** The `zIndex` of card `index`: 40 when active, otherwise `n + 2 - index`. */
  function ZIndex(index: nat, active: nat, n: nat): (z: int)
    requires index < n
    ensures !IsActive(index, active) ==> z >= 3
  {
    if IsActive(index, active) then 40 else n + 2 - index
  }

  /** Inactive cards stack in reverse order of their index. */
  lemma InactiveStackOrder(i: nat, j: nat, active: nat, n: nat)
    requires i < j < n && i != active && j != active
    ensures ZIndex(i, active, n) > ZIndex(j, active, n)
  {
  }

  /** With at most 37 cards the active card is above every other card. */
  lemma ActiveOnTop(i: nat, active: nat, n: nat)
    requires i < n && active < n && i != active && n <= 37
    ensures ZIndex(active, active, n) > ZIndex(i, active, n)
  {
  }

  /** With 39 cards, card 0 is stacked above the active card 1. */
  lemma ActiveCoveredInLargeDeck()
    ensures ZIndex(0, 1, 39) > ZIndex(1, 1, 39)
  {
  }

  /** The carousel's state: the deck size, the autoplay flag, `active` and `isClient`. */
  class Carousel {
    const count: nat    // `testimonials.length`
    const autoplay: bool
    var active: nat
    var isClient: bool

    ghost predicate Valid()
      reads this
    {
      count > 0 && active < count
    }

    /** The first render: `active` is 0 and the component is not yet hydrated. */
    constructor (count: nat, autoplay: bool)
      requires count > 0
      ensures Valid() && active == 0 && !isClient
      ensures this.count == count && this.autoplay == autoplay
    {
      this.count := count;
      this.autoplay := autoplay;
      active := 0;
      isClient := false;
    }

    /** The mount effect sets `isClient`. */
    method Hydrate()
      requires Valid()
      modifies this
      ensures Valid() && isClient && active == old(active)
    {
      isClient := true;
    }

    /** The autoplay interval runs only when autoplay is on and the component is hydrated. */
    predicate IntervalRunning()
      reads this
    {
      autoplay && isClient
    }

    method HandleNext()
      requires Valid()
      modifies this
      ensures Valid() && active == Next(old(active), count) && isClient == old(isClient)
    {
      active := (active + 1) % count;
    }

    method HandlePrev()
      requires Valid()
      modifies this
      ensures Valid() && active == Prev(old(active), count) && isClient == old(isClient)
    {
      active := (active - 1 + count) % count;
    }

    /** One autoplay tick: exactly a `handleNext`, possible only while the interval runs. */
    method AutoplayTick()
      requires Valid() && IntervalRunning()
      modifies this
      ensures Valid() && active == Next(old(active), count) && IntervalRunning()
    {
      HandleNext();
    }
  }

  /** Next then previous, on a live carousel, leaves the active card where it was. */
  method NextThenPrev(c: Carousel)
    requires c.Valid()
    modifies c
    ensures c.Valid() && c.active == old(c.active)
  {
    c.HandleNext();
    c.HandlePrev();
    PrevNextInverse(old(c.active), c.count);
  }
}
