/**
 * The showcase carousel of src/components/ShowcaseSection.tsx: a fixed list of
 * four items, the index of the one on display, the direction of the last move
 * (used only to pick the slide-in side), and the ref holding at most one
 * autoplay timer.
 */
module Showcase {
  import opened Wrappers
  import opened Timers

  datatype ShowcaseItem = ShowcaseItem(
    id: int,
    title: string,
    description: string,
    imageUrl: string,
    category: string)

  /** The `showcaseItems` table, in display order. */
  const Items: seq<ShowcaseItem> := [
    ShowcaseItem(1, "Digital Experience",
      "Creating immersive digital journeys that captivate audiences.",
      "https://images.unsplash.com/photo-1487058792275-0ad4aaf24ca7?crop=entropy&cs=tinysrgb&fit=max&fm=jpg&q=80&w=1080",
      "Web Design"),
    ShowcaseItem(2, "Brand Identity",
      "Crafting memorable brand experiences that resonate with your audience.",
      "https://images.unsplash.com/photo-1506744038136-46273834b3fb?crop=entropy&cs=tinysrgb&fit=max&fm=jpg&q=80&w=1080",
      "Branding"),
    ShowcaseItem(3, "Mobile Interfaces",
      "Designing intuitive and beautiful mobile experiences.",
      "https://images.unsplash.com/photo-1581091226825-a6a2a5aee158?crop=entropy&cs=tinysrgb&fit=max&fm=jpg&q=80&w=1080",
      "UI/UX"),
    ShowcaseItem(4, "Interactive Websites",
      "Building engaging websites with cutting-edge technologies.",
      "https://images.unsplash.com/photo-1605810230434-7631ac76ec81?crop=entropy&cs=tinysrgb&fit=max&fm=jpg&q=80&w=1080",
      "Development")
  ]

  /** The table has four entries whose ids are 1, 2, 3, 4 in order, hence distinct. */
  lemma ItemsTable()
    ensures |Items| == 4
    ensures forall i :: 0 <= i < |Items| ==> Items[i].id == i + 1
    ensures forall i, j :: 0 <= i < |Items| && 0 <= j < |Items| && Items[i].id == Items[j].id ==> i == j
  {
  }

  // ---------------------------------------------------------------------------
  // Index arithmetic. The carousel only ever applies `%` to non-negative
  // operands, where JavaScript's truncating remainder and Dafny's Euclidean one
  // agree.
  // ---------------------------------------------------------------------------

  /** A remainder is determined by any quotient/remainder decomposition. */
  lemma ModUnique(a: int, n: int, q: int, r: int)
    requires 0 < n && 0 <= r < n && a == q * n + r
    ensures a % n == r
  {
    var q0, r0 := a / n, a % n;
    assert a == q0 * n + r0;
    if q0 < q {
      assert (q - q0) * n >= n by { MulAtLeast(q - q0, n); }
      assert false;
    } else if q < q0 {
      assert (q0 - q) * n >= n by { MulAtLeast(q0 - q, n); }
      assert false;
    }
  }

  lemma MulAtLeast(k: int, n: int)
    requires 1 <= k && 0 < n
    ensures k * n >= n
  {
  }

  /** `(prev + 1) % showcaseItems.length`: one step forward, wrapping from the last item to the first. */
  function NextIndex(i: int, n: int): (r: int)
    requires 0 <= i < n
    ensures 0 <= r < n
    ensures r == if i == n - 1 then 0 else i + 1
  {
    if i == n - 1 then ModUnique(i + 1, n, 1, 0); (i + 1) % n
    else ModUnique(i + 1, n, 0, i + 1); (i + 1) % n
  }

  /** `(prev - 1 + showcaseItems.length) % showcaseItems.length`: one step back, wrapping from the first item to the last. */
  function PrevIndex(i: int, n: int): (r: int)
    requires 0 <= i < n
    ensures 0 <= r < n
    ensures r == if i == 0 then n - 1 else i - 1
  {
    if i == 0 then ModUnique(i - 1 + n, n, 0, n - 1); (i - 1 + n) % n
    else ModUnique(i - 1 + n, n, 1, i - 1); (i - 1 + n) % n
  }

  /** A step back undoes a step forward and vice versa. */
  lemma NextPrevInverse(i: int, n: int)
    requires 0 <= i < n
    ensures NextIndex(PrevIndex(i, n), n) == i
    ensures PrevIndex(NextIndex(i, n), n) == i
  {
  }

  /** The index after `m` forward steps from `i`. */
  function NextTimes(i: int, m: nat, n: int): (r: int)
    requires 0 <= i < n
    ensures 0 <= r < n
    decreases m
  {
    if m == 0 then i else NextIndex(NextTimes(i, m - 1, n), n)
  }

  /** The index after `m` backward steps from `i`. */
  function PrevTimes(i: int, m: nat, n: int): (r: int)
    requires 0 <= i < n
    ensures 0 <= r < n
    decreases m
  {
    if m == 0 then i else PrevIndex(PrevTimes(i, m - 1, n), n)
  }

  lemma ModSucc(a: int, n: int)
    requires 0 < n
    ensures (a + 1) % n == if a % n == n - 1 then 0 else a % n + 1
  {
    var q, r := a / n, a % n;
    if r == n - 1 {
      ModUnique(a + 1, n, q + 1, 0);
    } else {
      ModUnique(a + 1, n, q, r + 1);
    }
  }

  lemma ModPred(a: int, n: int)
    requires 0 < n
    ensures (a - 1) % n == if a % n == 0 then n - 1 else a % n - 1
  {
    var q, r := a / n, a % n;
    if r == 0 {
      ModUnique(a - 1, n, q - 1, n - 1);
    } else {
      ModUnique(a - 1, n, q, r - 1);
    }
  }

  /** `m` forward steps from `i` land on `(i + m) mod n`. */
  lemma {:induction false} NextTimesIsShift(i: int, m: nat, n: int)
    requires 0 <= i < n
    ensures NextTimes(i, m, n) == (i + m) % n
  {
    if m == 0 {
      ModUnique(i, n, 0, i);
    } else {
      NextTimesIsShift(i, m - 1, n);
      ModSucc(i + m - 1, n);
    }
  }

  /** `m` backward steps from `i` land on `(i - m) mod n`, a non-negative index. */
  lemma {:induction false} PrevTimesIsShift(i: int, m: nat, n: int)
    requires 0 <= i < n
    ensures PrevTimes(i, m, n) == (i - m) % n
  {
    if m == 0 {
      ModUnique(i, n, 0, i);
    } else {
      PrevTimesIsShift(i, m - 1, n);
      ModPred(i - m + 1, n);
    }
  }

  /** A full round of `n` forward steps comes back to the start. */
  lemma FullRound(i: int, n: int)
    requires 0 <= i < n
    ensures NextTimes(i, n, n) == i
    ensures PrevTimes(i, n, n) == i
  {
    NextTimesIsShift(i, n, n);
    ModUnique(i + n, n, 1, i);
    PrevTimesIsShift(i, n, n);
    ModUnique(i - n, n, -1, i);
  }

  /** The direction a dot click picks: forward exactly when the target lies after the current item. */
  function DotDirection(target: int, current: int): (d: int)
    ensures d == 1 || d == -1
    ensures d == 1 <==> target > current
  {
    if target > current then 1 else -1
  }

  // ---------------------------------------------------------------------------
  // The controller.
  // ---------------------------------------------------------------------------

  class Carousel {
    /** The `activeIndex` state. */
    var activeIndex: int
    /** The `direction` state: 0 before any move, then 1 or -1. */
    var direction: int
    /** `intervalRef.current`: the handle of the autoplay timer, or null. */
    var interval: Option<TimerId>
    /** The browser's interval timers, owned by this carousel. */
    const timers: IntervalTable

    /** The index is in bounds and the ref names exactly the live timers. */
    ghost predicate Valid()
      reads this, timers
    {
      timers.Valid() &&
      0 <= activeIndex < |Items| &&
      (direction == -1 || direction == 0 || direction == 1) &&
      timers.live == (if interval.Some? then {interval.value} else {})
    }

    /** The number of autoplay timers that are running. */
    function LiveTimerCount(): (c: nat)
      reads this, timers
      requires Valid()
      ensures c <= 1
      ensures c == 1 <==> interval.Some?
    {
      |timers.live|
    }

    /** `showcaseItems[activeIndex]`: the item on display, always one of the table's. */
    function CurrentItem(): (item: ShowcaseItem)
      reads this, timers
      requires Valid()
      ensures item in Items
      ensures item.id == activeIndex + 1
    {
      ItemsTable();
      Items[activeIndex]
    }

    /** Mounting: initial state, then the mount effect starts autoplay. */
    constructor Mount()
      ensures Valid() && fresh(timers)
      ensures activeIndex == 0 && direction == 0
      ensures interval.Some? && LiveTimerCount() == 1
    {
      activeIndex := 0;
      direction := 0;
      interval := None;
      timers := new IntervalTable();
      new;
      StartAutoPlay();
    }

    /** The cleanup of the mount effect: stops autoplay, so no timer outlives the carousel. */
    method Unmount()
      requires Valid()
      modifies this, timers
      ensures Valid()
      ensures activeIndex == old(activeIndex) && direction == old(direction)
      ensures interval.None? && LiveTimerCount() == 0
    {
      StopAutoPlay();
    }

    /** `startAutoPlay`: schedules the autoplay timer unless one is running. */
    method StartAutoPlay()
      requires Valid()
      modifies this, timers
      ensures Valid()
      ensures activeIndex == old(activeIndex) && direction == old(direction)
      ensures interval.Some? && LiveTimerCount() == 1
      ensures old(interval).Some? ==> interval == old(interval) && unchanged(timers)
      ensures old(interval).None? ==> interval.value !in old(timers.live) && interval.value >= old(timers.nextId)
    {
      if interval.Some? {
        return;
      }
      var h := timers.SetInterval();
      interval := Some(h);
    }

    /** `stopAutoPlay`: cancels the autoplay timer if one is running. */
    method StopAutoPlay()
      requires Valid()
      modifies this, timers
      ensures Valid()
      ensures activeIndex == old(activeIndex) && direction == old(direction)
      ensures interval.None? && LiveTimerCount() == 0
      ensures timers.nextId == old(timers.nextId)
      ensures old(interval).None? ==> unchanged(timers)
    {
      if interval.None? {
        return;
      }
      timers.ClearInterval(interval.value);
      interval := None;
    }

    /** The callback of the live timer `h`, run every 5000 ms: a forward step that leaves the timer alone. */
    method Tick(h: TimerId)
      requires Valid() && h in timers.live
      modifies this
      ensures Valid()
      ensures direction == 1
      ensures activeIndex == NextIndex(old(activeIndex), |Items|)
      ensures interval == old(interval) && interval == Some(h)
    {
      direction := 1;
      activeIndex := NextIndex(activeIndex, |Items|);
    }

    /** `handleNext`: stop, step forward, restart, so the autoplay period starts afresh. */
    method HandleNext()
      requires Valid()
      modifies this, timers
      ensures Valid()
      ensures direction == 1
      ensures activeIndex == NextIndex(old(activeIndex), |Items|)
      ensures interval.Some? && LiveTimerCount() == 1
      ensures interval.value !in old(timers.live)
    {
      StopAutoPlay();
      direction := 1;
      activeIndex := NextIndex(activeIndex, |Items|);
      StartAutoPlay();
    }

    /** `handlePrev`: stop, step back, restart. */
    method HandlePrev()
      requires Valid()
      modifies this, timers
      ensures Valid()
      ensures direction == -1
      ensures activeIndex == PrevIndex(old(activeIndex), |Items|)
      ensures interval.Some? && LiveTimerCount() == 1
      ensures interval.value !in old(timers.live)
    {
      StopAutoPlay();
      direction := -1;
      activeIndex := PrevIndex(activeIndex, |Items|);
      StartAutoPlay();
    }

    /** `handleDotClick(index)`: stop, jump to `index` (forward iff it lies after the current item), restart. */
    method HandleDotClick(index: int)
      requires Valid()
      requires 0 <= index < |Items|
      modifies this, timers
      ensures Valid()
      ensures direction == DotDirection(index, old(activeIndex))
      ensures direction == 1 <==> index > old(activeIndex)
      ensures activeIndex == index
      ensures interval.Some? && LiveTimerCount() == 1
      ensures interval.value !in old(timers.live)
    {
      StopAutoPlay();
      direction := DotDirection(index, activeIndex);
      activeIndex := index;
      StartAutoPlay();
    }
  }

  /** A walk through the carousel as a visitor would drive it, checked against the contracts alone. */
  method Scenario()
  {
    var c := new Carousel.Mount();
    assert c.activeIndex == 0 && c.direction == 0 && c.LiveTimerCount() == 1;
    c.HandleNext();
    assert c.activeIndex == 1 && c.direction == 1;
    c.HandlePrev();
    assert c.activeIndex == 0 && c.direction == -1;
    c.HandleDotClick(3);
    assert c.activeIndex == 3 && c.direction == 1;
    c.HandleNext();
    assert c.activeIndex == 0 && c.direction == 1;
    c.HandleDotClick(0);
    assert c.activeIndex == 0 && c.direction == -1;
    // Three periods of autoplay with no interaction.
    c.Tick(c.interval.value);
    c.Tick(c.interval.value);
    c.Tick(c.interval.value);
    assert c.activeIndex == 3 && c.direction == 1 && c.LiveTimerCount() == 1;
    c.Unmount();
    assert c.LiveTimerCount() == 0;
  }
}
