/**
  `iDo/Components/DOImageLoop.swift`: a carousel of three image views (left,
  middle, right) over a list of image paths, recentred after every scroll so
  that the middle view always shows the current page.

  The image downloads, the content modes' rendering and the repeating timer
  are left out; a slot is known by the index of the path it shows. The
  scroll position is known by its x offset, and the rounding of that offset
  to a slot number happens outside (the slot number is a parameter).
 */
module DOImageLoop {

  function Abs(x: int): int {
    if x < 0 then -x else x
  }

  /** A multiple of `n` leaves no remainder. */
  lemma MultipleHasNoRemainder(k: int, n: int)
    requires n != 0
    ensures (k * n) % n == 0
  {
    var x := k * n;
    var d := k - x / n;
    assert d * n == x % n;
    if d > 0 {
      if n > 0 { MulMono(d, 1, n); } else { MulMono(-d, -1, -n); }
    } else if d < 0 {
      if n > 0 { MulMono(-d, 1, n); } else { MulMono(d, -1, -n); }
    }
  }

  /**
    Swift's `%` on `Int`: `a` less the remainder is a multiple of `n`, the
    remainder is smaller than `n` in size, and a nonzero remainder has the
    sign of `a` (division truncates toward zero).
   */
  function SwiftRem(a: int, n: int): (r: int)
    requires n != 0
    ensures (a - r) % n == 0
    ensures -Abs(n) < r < Abs(n)
    ensures r == 0 || (r < 0 <==> a < 0)
  {
    if 0 <= a then
      MultipleHasNoRemainder(a / n, n);
      a % n
    else
      MultipleHasNoRemainder(-((-a) / n), n);
      assert a + (-a) % n == -((-a) / n) * n;
      -((-a) % n)
  }

  /** A negative dividend is where Swift and Dafny part ways: −1 % 3 is −1 in Swift and 2 in Dafny. */
  lemma SwiftRemKeepsSign()
    ensures SwiftRem(-1, 3) == -1 && -1 % 3 == 2
  {
  }

  /** Multiplying by a positive number keeps the order. */
  lemma MulMono(a: int, b: int, n: int)
    requires a >= b && n > 0
    ensures a * n >= b * n
  {
  }

  /** A remainder is pinned down by any quotient that leaves it in range. */
  lemma ModUnique(x: int, n: int, q: int, r: int)
    requires 0 < n && 0 <= r < n && x == q * n + r
    ensures x % n == r
  {
    var d := q - x / n;
    assert d * n == x % n - r;
    if d >= 1 {
      MulMono(d, 1, n);
    } else if d <= -1 {
      MulMono(-1, d, n);
    }
  }

  /** Adding the modulus leaves the remainder alone. */
  lemma ModShift(x: int, n: int)
    requires 0 < n
    ensures (x + n) % n == x % n
  {
    assert x + n == (x / n + 1) * n + x % n;
    ModUnique(x + n, n, x / n + 1, x % n);
  }

  /** The three image indices `resetImage` shows. */
  datatype Slots = Slots(left: int, middle: int, right: int)

  /** The index `resetImage(from:isFirst:)` centres on. */
  function Current(index: int, isFirst: bool, currentPage: int): int {
    if isFirst then index else currentPage + (if index == 0 then -1 else 1)
  }

  /** `resetImage`'s index arithmetic, on Swift's remainder. */
  function SlotsOf(current: int, n: int): Slots
    requires 0 < n
  {
    Slots(SwiftRem(current - 1 + n, n), SwiftRem(current + n, n), SwiftRem(current + 1 + n, n))
  }

  /** Every slot indexes the list: what `images[...]` demands. */
  predicate InRange(s: Slots, n: int) {
    0 <= s.left < n && 0 <= s.middle < n && 0 <= s.right < n
  }

  /**
    For a current index from one before the first to one past the last, the
    three slots are the previous, current and next image around the circle:
    they index the list and agree with the mathematical remainder.
   */
  lemma SlotsAreNeighbours(current: int, n: int)
    requires 0 < n && -1 <= current <= n
    ensures var s := SlotsOf(current, n);
      && InRange(s, n)
      && s.left == (current - 1) % n && s.middle == current % n && s.right == (current + 1) % n
  {
    ModShift(current, n);
    ModShift(current + 1, n);
    if current - 1 + n >= 0 {
      ModShift(current - 1, n);
    } else {
      assert n == 1 && current == -1;
      assert (current - 1) % n == 0;
    }
  }

  /** Recentred after a scroll, the middle view shows the next image for a forward scroll and the previous for a backward one. */
  lemma ScrollRotates(page: int, n: int, idx: int)
    requires 0 <= page < n && idx != 1
    ensures var s := SlotsOf(Current(idx, false, page), n);
      && InRange(s, n)
      && (idx == 0 ==> s.middle == (page - 1) % n)
      && (idx != 0 ==> s.middle == (page + 1) % n)
  {
    SlotsAreNeighbours(Current(idx, false, page), n);
  }

  /** `DOImageLoop`: the paths, the page control, the scroll view's state and the three slots. */
  class ImageLoop {
    /** The width of the view, which is the width of one slot in the scroll view. */
    const boundsWidth: real
    /** `images`, empty while unset. */
    var images: seq<string>
    var pageHidden: bool
    var numberOfPages: int
    var currentPage: int
    var scrollEnabled: bool
    var contentMode: nat
    var offsetX: real
    var isOffsetedOnce: bool
    var slots: Slots

    /** The page control's current page is an image of the list. */
    predicate Valid()
      reads this
    {
      |images| > 0 ==> 0 <= currentPage < |images|
    }

    constructor (boundsWidth: real)
      ensures this.boundsWidth == boundsWidth && images == [] && currentPage == 0 && !isOffsetedOnce
      ensures Valid()
    {
      this.boundsWidth := boundsWidth;
      images := [];
      pageHidden := false;
      numberOfPages := 0;
      currentPage := 0;
      scrollEnabled := true;
      contentMode := 0;
      offsetX := 0.0;
      isOffsetedOnce := false;
      slots := Slots(0, 0, 0);
    }

    /** `draw(_:)`: the first draw scrolls to the middle slot. */
    method Draw()
      modifies this`isOffsetedOnce, this`offsetX
      ensures isOffsetedOnce
      ensures !old(isOffsetedOnce) ==> offsetX == boundsWidth
      ensures old(isOffsetedOnce) ==> offsetX == old(offsetX)
    {
      if !isOffsetedOnce {
        isOffsetedOnce := true;
        offsetX := boundsWidth;
      }
    }

    /**
      `resetImage(from:isFirst:)`: the three views show the previous, current
      and next image, the page control follows the middle and the scroll view
      goes back to the middle slot.
     */
    method ResetImage(index: int, isFirst: bool)
      requires |images| > 0 && InRange(SlotsOf(Current(index, isFirst, currentPage), |images|), |images|)
      modifies this`slots, this`currentPage, this`offsetX
      ensures slots == SlotsOf(Current(index, isFirst, old(currentPage)), |images|)
      ensures currentPage == slots.middle && offsetX == boundsWidth
      ensures Valid()
    {
      var current := if isFirst then index else currentPage + (if index == 0 then -1 else 1);
      var n := |images|;
      var lIndex := SwiftRem(current - 1 + n, n);
      var mIndex := SwiftRem(current + n, n);
      var rIndex := SwiftRem(current + 1 + n, n);
      slots := Slots(lIndex, mIndex, rIndex);
      currentPage := mIndex;
      offsetX := boundsWidth;
    }

    /**
      `setImages(_:mode:)`: an empty list changes nothing; otherwise the list
      is stored, the page control and scrolling follow its length, and the
      carousel starts on the first image.
     */
    method SetImages(paths: seq<string>, mode: nat)
      requires Valid()
      modifies this`images, this`pageHidden, this`numberOfPages, this`scrollEnabled, this`contentMode,
               this`slots, this`currentPage, this`offsetX
      ensures |paths| == 0 ==> unchanged(this)
      ensures |paths| > 0 ==>
        && images == paths && numberOfPages == |paths| && contentMode == mode
        && pageHidden == (|paths| <= 1) && scrollEnabled == (|paths| > 1)
        && slots == SlotsOf(0, |paths|) && currentPage == 0 && offsetX == boundsWidth
      ensures Valid()
    {
      if |paths| == 0 {
        return;
      }
      images := paths;
      pageHidden := |paths| <= 1;
      numberOfPages := |paths|;
      scrollEnabled := |paths| > 1;
      contentMode := mode;
      SlotsAreNeighbours(0, |paths|);
      ResetImage(0, true);
    }

    /** The timer's tick scrolls, animated, to the right slot. */
    method TimerFired()
      modifies this`offsetX
      ensures offsetX == boundsWidth * 2.0
    {
      offsetX := boundsWidth * 2.0;
    }

    /**
      `scrollViewDidEndDecelerating(_:)`, given the slot the scroll stopped
      on: the middle slot changes nothing; the left one steps back a page,
      any other steps forward.
     */
    method ScrollEnded(idx: int)
      requires Valid() && (idx != 1 ==> |images| > 0)
      modifies this`slots, this`currentPage, this`offsetX
      ensures idx == 1 ==> unchanged(this)
      ensures idx != 1 ==>
        && slots == SlotsOf(Current(idx, false, old(currentPage)), |images|)
        && currentPage == (if idx == 0 then (old(currentPage) - 1) % |images| else (old(currentPage) + 1) % |images|)
        && offsetX == boundsWidth
      ensures Valid()
    {
      if idx == 1 {
        return;
      }
      ScrollRotates(currentPage, |images|, idx);
      ResetImage(idx, false);
    }
  }
}
