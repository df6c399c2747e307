/** The home page product carousel (components/sections/Products.tsx): a
    window of `itemsToShow` cards over the visible products, starting at
    `currentIndex`, moved by the previous/next buttons with wrap-around. */
module Carousel {
  import opened Util
  import opened Catalog

  /** One card on narrow screens (below 640 px), four otherwise. */
  function ItemsToShow(width: int): (k: int)
    ensures k == 1 || k == 4
    ensures k == 1 <==> width < 640
  {
    if width < 640 then 1 else 4
  }

  /** `Math.max(0, products.length - itemsToShow)`: the last starting index. */
  function MaxIndex(count: nat, itemsToShow: int): (m: int)
    ensures m >= 0
    ensures m == 0 || m == count - itemsToShow
    ensures m >= count - itemsToShow
  {
    Max(0, count - itemsToShow)
  }

  /** The state updater of `handleNext`. */
  function NextIndex(prev: int, maxIndex: int): int {
    if prev >= maxIndex then 0 else prev + 1
  }

  /** The state updater of `handlePrev`. */
  function PrevIndex(prev: int, maxIndex: int): int {
    if prev <= 0 then maxIndex else prev - 1
  }

  /** The updater of the resize handler: `Math.min(prev, maxIndex)`. */
  function ClampIndex(prev: int, count: nat, itemsToShow: int): int {
    Min(prev, MaxIndex(count, itemsToShow))
  }

  /** Next moves one card on, and from the last position (or beyond) wraps
      to the first. */
  lemma NextSteps(prev: int, maxIndex: int)
    ensures prev >= maxIndex ==> NextIndex(prev, maxIndex) == 0
    ensures prev < maxIndex ==> NextIndex(prev, maxIndex) == prev + 1
  {
  }

  /** Previous moves one card back, and from the first position (or below)
      wraps to the last. */
  lemma PrevSteps(prev: int, maxIndex: int)
    ensures prev <= 0 ==> PrevIndex(prev, maxIndex) == maxIndex
    ensures prev > 0 ==> PrevIndex(prev, maxIndex) == prev - 1
  {
  }

  /** From any position in [0, maxIndex] both buttons stay in that range,
      and each undoes the other. */
  lemma {:induction false} PrevNextInverse(i: int, maxIndex: int)
    requires 0 <= i <= maxIndex
    ensures 0 <= NextIndex(i, maxIndex) <= maxIndex
    ensures 0 <= PrevIndex(i, maxIndex) <= maxIndex
    ensures PrevIndex(NextIndex(i, maxIndex), maxIndex) == i
    ensures NextIndex(PrevIndex(i, maxIndex), maxIndex) == i
  {
  }

  /** Clamping brings any non-negative index into [0, maxIndex]: an index
      already in range is left alone, one past the end becomes maxIndex. */
  lemma ClampInRange(prev: int, count: nat, itemsToShow: int)
    requires 0 <= prev
    ensures 0 <= ClampIndex(prev, count, itemsToShow) <= MaxIndex(count, itemsToShow)
    ensures ClampIndex(prev, count, itemsToShow) <= prev
    ensures prev <= MaxIndex(count, itemsToShow) ==> ClampIndex(prev, count, itemsToShow) == prev
    ensures prev > MaxIndex(count, itemsToShow) ==> ClampIndex(prev, count, itemsToShow) == MaxIndex(count, itemsToShow)
  {
  }

  /** `showNavigation`: the buttons are shown exactly when there are more
      products than fit, which is exactly when there is somewhere to move. */
  function ShowNavigation(count: nat, itemsToShow: int): (shown: bool)
    ensures shown <==> MaxIndex(count, itemsToShow) > 0
  {
    count > itemsToShow
  }

  class ProductCarousel {
    var products: seq<Product>
    var itemsToShow: int
    var currentIndex: int

    /** The window starts inside the product list. */
    ghost predicate Valid()
      reads this
    {
      && (itemsToShow == 1 || itemsToShow == 4)
      && 0 <= currentIndex <= MaxIndex(|products|, itemsToShow)
    }

    /** `useState(0)`, `useState(4)`, `useState([])`, then the mount run of
        `updateItemsToShow` at the window's width (which keeps index 0). */
    constructor (width: int)
      ensures Valid()
      ensures products == [] && itemsToShow == ItemsToShow(width) && currentIndex == 0
    {
      products, itemsToShow, currentIndex := [], ItemsToShow(width), 0;
    }

    /** The resize handler `updateItemsToShow`, also run when the number of
        products changes. */
    method UpdateItemsToShow(width: int)
      requires 0 <= currentIndex
      modifies this`itemsToShow, this`currentIndex
      ensures Valid()
      ensures itemsToShow == ItemsToShow(width)
      ensures currentIndex == ClampIndex(old(currentIndex), |products|, itemsToShow)
    {
      itemsToShow := ItemsToShow(width);
      ClampInRange(currentIndex, |products|, itemsToShow);
      currentIndex := ClampIndex(currentIndex, |products|, itemsToShow);
    }

    /** The fetch handler: keeps the visible products; when their number
        changes the effect re-runs `updateItemsToShow` at the current width. */
    method LoadProducts(fetched: seq<Product>, width: int)
      requires Valid()
      modifies this
      ensures Valid()
      ensures products == VisibleProducts(fetched)
      ensures |products| != |old(products)| ==>
        itemsToShow == ItemsToShow(width) && currentIndex == ClampIndex(old(currentIndex), |products|, itemsToShow)
      ensures |products| == |old(products)| ==>
        itemsToShow == old(itemsToShow) && currentIndex == old(currentIndex)
    {
      var before := |products|;
      products := VisibleProducts(fetched);
      if |products| != before {
        UpdateItemsToShow(width);
      }
    }

    /** The previous button. */
    method HandlePrev()
      requires Valid()
      modifies this`currentIndex
      ensures Valid()
      ensures currentIndex == PrevIndex(old(currentIndex), MaxIndex(|products|, itemsToShow))
    {
      PrevNextInverse(currentIndex, MaxIndex(|products|, itemsToShow));
      currentIndex := PrevIndex(currentIndex, MaxIndex(|products|, itemsToShow));
    }

    /** The next button. */
    method HandleNext()
      requires Valid()
      modifies this`currentIndex
      ensures Valid()
      ensures currentIndex == NextIndex(old(currentIndex), MaxIndex(|products|, itemsToShow))
    {
      PrevNextInverse(currentIndex, MaxIndex(|products|, itemsToShow));
      currentIndex := NextIndex(currentIndex, MaxIndex(|products|, itemsToShow));
    }
  }
}
