/** The Carousel component: one integer `current` indexing `children`, moved by the
    `next` and `prev` arrow buttons (which wrap at the ends) and set directly by the
    row of indicator buttons underneath. `len` stands for `children.length`. */
module CarouselIndex {

  /** The `next` updater: the last index wraps to 0, every other index (including
      one already past the end) is incremented. On the valid range it is rotation
      by one. */
  function Next(current: int, len: int): (r: int)
    ensures 0 <= current < len ==> 0 <= r < len && r == (current + 1) % len
    ensures current == len - 1 ==> r == 0
    ensures current != len - 1 ==> r == current + 1
  {
    if current == len - 1 then 0 else current + 1
  }

  /** The `prev` updater: 0 wraps to the last index, every other index is
      decremented. On the valid range it is rotation by minus one. */
  function Prev(current: int, len: int): (r: int)
    ensures 0 <= current < len ==> 0 <= r < len && r == (current - 1) % len
    ensures current == 0 ==> r == len - 1
    ensures current != 0 ==> r == current - 1
  {
    if current == 0 then len - 1 else current - 1
  }

  lemma PrevUndoesNext(current: int, len: int)
    requires 0 <= current < len
    ensures Prev(Next(current, len), len) == current
  {
  }

  lemma NextUndoesPrev(current: int, len: int)
    requires 0 <= current < len
    ensures Next(Prev(current, len), len) == current
  {
  }

  /** `next` only wraps on equality: from an index past the end it moves further
      away, so the range property above needs its in-range precondition. */
  lemma NextPastEndDoesNotWrap(current: int, len: int)
    requires current > len - 1
    ensures Next(current, len) == current + 1
    ensures !(0 <= Next(current, len) < len)
  {
  }

  /** `k` clicks on the `next` button. */
  function NextTimes(current: int, len: int, k: nat): (r: int)
    ensures 0 <= current < len ==> 0 <= r < len
  {
    if k == 0 then current else Next(NextTimes(current, len, k - 1), len)
  }

  /** From an in-range index, `k <= len` clicks on `next` rotate it by `k`. */
  lemma {:induction false} NextTimesRotates(current: int, len: int, k: nat)
    requires 0 <= current < len && k <= len
    ensures NextTimes(current, len, k) == if current + k < len then current + k else current + k - len
    ensures NextTimes(current, len, k) == (current + k) % len
  {
    if k > 0 {
      NextTimesRotates(current, len, k - 1);
    }
    ModBelowTwice(current + k, len);
  }

  lemma ModBelowTwice(x: int, len: int)
    requires 0 <= x < 2 * len
    ensures x % len == if x < len then x else x - len
  {
    if x >= len {
      assert x == 1 * len + (x - len);
    }
  }

  /** Clicking `next` as many times as there are children comes back to the start. */
  lemma NextCycle(current: int, len: int)
    requires 0 <= current < len
    ensures NextTimes(current, len, len) == current
  {
    NextTimesRotates(current, len, len);
  }

  /** Which indicator buttons are highlighted (`current === i`), for `i` in `0..len`. */
  function Indicators(current: int, len: nat): (r: seq<bool>)
    ensures |r| == len
    ensures forall i :: 0 <= i < len ==> (r[i] <==> i == current)
  {
    seq(len, i => i == current)
  }

  /** Number of highlighted indicators. */
  function CountActive(s: seq<bool>): nat
  {
    if s == [] then 0 else (if s[0] then 1 else 0) + CountActive(s[1..])
  }

  /** Exactly one indicator is highlighted while `current` is in range, and none
      when it is not. */
  lemma {:induction false} OneActiveIndicator(current: int, len: nat)
    decreases len
    ensures CountActive(Indicators(current, len)) == if 0 <= current < len then 1 else 0
  {
    if len > 0 {
      var s := Indicators(current, len);
      var t := Indicators(current - 1, len - 1);
      assert s[1..] == t;
      OneActiveIndicator(current - 1, len - 1);
    }
  }

  /** The component's state cell. */
  class Carousel<T> {
    const children: seq<T>
    var current: int

    /** Once there is at least one child, `current` stays a valid index. */
    ghost predicate Valid()
      reads this
    {
      |children| > 0 ==> 0 <= current < |children|
    }

    /** `useState(0)`. */
    constructor (children: seq<T>)
      ensures this.children == children && current == 0
      ensures Valid()
    {
      this.children := children;
      current := 0;
    }

    method ClickNext()
      requires Valid()
      modifies this
      ensures current == Next(old(current), |children|)
      ensures Valid()
    {
      current := Next(current, |children|);
    }

    method ClickPrev()
      requires Valid()
      modifies this
      ensures current == Prev(old(current), |children|)
      ensures Valid()
    {
      current := Prev(current, |children|);
    }

    /** Indicator button `i` exists only for `i` in `0..children.length`. */
    method ClickIndicator(i: int)
      requires 0 <= i < |children|
      modifies this
      ensures current == i
      ensures Valid()
      ensures CountActive(Indicators(current, |children|)) == 1
    {
      current := i;
      OneActiveIndicator(current, |children|);
    }
  }
}
