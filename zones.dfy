/**
 * The zone showcase carousel: an active index over the seven showcase
 * zones and an autoplay flag. Manual navigation switches autoplay off;
 * the five-second interval advances the index only while autoplay is on.
 */
module Zones {
  import opened Arithmetic

  /** Number of zones in the showcase list. */
  const ZoneCount: nat := 7

  /** The index reached from `i` after `k` autoplay ticks. */
  function Advance(i: nat, n: nat, k: nat): (r: nat)
    requires i < n
    ensures r < n
    decreases k
  {
    if k == 0 then i else NextIndex(Advance(i, n, k - 1), n)
  }

  /** Stepping a reduced index is reducing the next number. */
  lemma NextOfRemainder(m: nat, n: nat)
    requires n > 0
    ensures NextIndex(m % n, n) == (m + 1) % n
  {
    var j, q := m % n, m / n;
    assert m == q * n + j;
    if j + 1 < n {
      DivModUnique(m + 1, n, q, j + 1);
    } else {
      assert m + 1 == (q + 1) * n + 0;
      DivModUnique(m + 1, n, q + 1, 0);
    }
  }

  /** `k` ticks move the index `k` places forward, modulo the list length;
      in particular `n` ticks bring every zone back. */
  lemma {:induction false} AdvanceIsModular(i: nat, n: nat, k: nat)
    requires i < n
    ensures Advance(i, n, k) == (i + k) % n
    decreases k
  {
    if k == 0 {
      DivModUnique(i, n, 0, i);
    } else {
      AdvanceIsModular(i, n, k - 1);
      NextOfRemainder(i + k - 1, n);
    }
  }

  /** A full round of `n` ticks comes back to the zone it started from. */
  lemma FullRound(i: nat, n: nat)
    requires i < n
    ensures Advance(i, n, n) == i
  {
    AdvanceIsModular(i, n, n);
    DivModUnique(i + n, n, 1, i);
  }

  /** The carousel component's state. */
  class Carousel {
    var activeZone: nat
    var isAutoPlay: bool

    ghost predicate Valid()
      reads this
    {
      activeZone < ZoneCount
    }

    /** The carousel starts on the first zone with autoplay on. */
    constructor ()
      ensures Valid() && activeZone == 0 && isAutoPlay
    {
      activeZone := 0;
      isAutoPlay := true;
    }

    /** One firing of the autoplay interval. The interval exists only while
        autoplay is on, so with autoplay off no tick changes anything. */
    method Tick()
      requires Valid()
      modifies this
      ensures Valid() && isAutoPlay == old(isAutoPlay)
      ensures activeZone == if old(isAutoPlay) then NextIndex(old(activeZone), ZoneCount) else old(activeZone)
    {
      if isAutoPlay {
        activeZone := (activeZone + 1) % ZoneCount;
      }
    }

    /** The "next" arrow. */
    method NextZone()
      requires Valid()
      modifies this
      ensures Valid() && !isAutoPlay
      ensures activeZone == NextIndex(old(activeZone), ZoneCount)
    {
      isAutoPlay := false;
      activeZone := (activeZone + 1) % ZoneCount;
    }

    /** The "previous" arrow. */
    method PrevZone()
      requires Valid()
      modifies this
      ensures Valid() && !isAutoPlay
      ensures activeZone == PrevIndex(old(activeZone), ZoneCount)
    {
      isAutoPlay := false;
      activeZone := (activeZone - 1 + ZoneCount) % ZoneCount;
    }

    /** A thumbnail or progress dot; both exist only for indices of the list. */
    method GoToZone(index: nat)
      requires Valid() && index < ZoneCount
      modifies this
      ensures Valid() && !isAutoPlay && activeZone == index
    {
      isAutoPlay := false;
      activeZone := index;
    }

    /** The autoplay button flips the flag and leaves the zone alone. */
    method ToggleAutoPlay()
      requires Valid()
      modifies this
      ensures Valid() && isAutoPlay == !old(isAutoPlay) && activeZone == old(activeZone)
    {
      isAutoPlay := !isAutoPlay;
    }
  }
}
