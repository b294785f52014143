/** The Slider component: one integer `counter` selecting which of `children` is
    displayed, moved by `nextSlide` and `prevSlide`. `len` stands for
    `children.length`. Unlike the carousel's `next`, `nextSlide` wraps on every
    counter that is not below the last index. */
module SliderIndex {
  import CarouselIndex

  /** `nextSlide`: a counter below the last index moves up by one, any other
      counter goes back to 0. With at least one child the result is a valid index
      from any counter that is not negative, even one past the end; on the valid
      range it is rotation by one. */
  function NextSlide(counter: int, len: int): (r: int)
    ensures len > 0 && counter >= 0 ==> 0 <= r < len
    ensures 0 <= counter < len ==> r == (counter + 1) % len
    ensures counter >= len - 1 ==> r == 0
  {
    if counter < len - 1 then counter + 1 else 0
  }

  /** `prevSlide`: a positive counter moves down by one, any other counter goes to
      the last index. On the valid range it is rotation by minus one. */
  function PrevSlide(counter: int, len: int): (r: int)
    ensures 0 <= counter < len ==> 0 <= r < len && r == (counter - 1) % len
    ensures len > 0 && counter <= 0 ==> 0 <= r < len
    ensures counter <= 0 ==> r == len - 1
  {
    if counter > 0 then counter - 1 else len - 1
  }

  lemma PrevSlideUndoesNextSlide(counter: int, len: int)
    requires 0 <= counter < len
    ensures PrevSlide(NextSlide(counter, len), len) == counter
  {
  }

  lemma NextSlideUndoesPrevSlide(counter: int, len: int)
    requires 0 <= counter < len
    ensures NextSlide(PrevSlide(counter, len), len) == counter
  {
  }

  /** With a single child both buttons stay on it. */
  lemma SingleSlideIsFixed(counter: int)
    requires 0 <= counter < 1
    ensures NextSlide(counter, 1) == 0 && PrevSlide(counter, 1) == 0
  {
  }

  /** On in-range indices the slider and the carousel move alike; past the end
      the slider wraps to 0 where the carousel keeps counting up. */
  lemma AgreesWithCarousel(counter: int, len: int)
    ensures 0 <= counter < len ==>
      NextSlide(counter, len) == CarouselIndex.Next(counter, len) &&
      PrevSlide(counter, len) == CarouselIndex.Prev(counter, len)
    ensures counter > len - 1 ==>
      NextSlide(counter, len) == 0 && CarouselIndex.Next(counter, len) == counter + 1
  {
  }

  /** The component's state cell. */
  class Slider<T> {
    const children: seq<T>
    var counter: int

    /** With at least one child, `counter` is a valid index; with none it can only
        be 0 or -1 (the value `prevSlide` gives when `len - 1` is -1). */
    ghost predicate Valid()
      reads this
    {
      if |children| > 0 then 0 <= counter < |children| else counter in {0, -1}
    }

    /** `useState(0)`. */
    constructor (children: seq<T>)
      ensures this.children == children && counter == 0
      ensures Valid()
    {
      this.children := children;
      counter := 0;
    }

    method ClickNext()
      requires Valid()
      modifies this
      ensures counter == NextSlide(old(counter), |children|)
      ensures Valid()
    {
      if counter < |children| - 1 {
        counter := counter + 1;
      } else {
        counter := 0;
      }
    }

    method ClickPrev()
      requires Valid()
      modifies this
      ensures counter == PrevSlide(old(counter), |children|)
      ensures Valid()
    {
      if counter > 0 {
        counter := counter - 1;
      } else {
        counter := |children| - 1;
      }
    }

    /** The rendered `children[counter]`: a valid index whenever there is a child. */
    method Displayed() returns (child: T)
      requires Valid() && |children| > 0
      ensures 0 <= counter < |children| && child == children[counter]
    {
      child := children[counter];
    }
  }
}
