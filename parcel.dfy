/** The parcel the checkout page asks the courier to quote for
    (`parcelMetrics` in app/checkout/page.tsx): all cart lines packed as one
    parcel, weighing the sum of the line weights and as wide, long and high
    as the largest item in each direction, with dimensions rounded up. */
module Parcel {
  import opened Util
  import opened Cart

  datatype Metrics = Metrics(totalWeight: real, totalWidth: int, totalLength: int, totalHeight: int)

  const NoParcel := Metrics(0.0, 0, 0, 0)

  /** `Math.ceil` */
  function Ceil(x: real): (c: int)
    ensures x <= c as real < x + 1.0
  {
    -((-x).Floor)
  }

  /** `Number(item.quantity) || 1`: a zero quantity counts as one. */
  function Count(item: CartItem): int {
    if item.quantity == 0 then 1 else item.quantity
  }

  /** `Number(x) || 0`: a missing measure counts as zero. */
  function Measure(x: Option<real>): real {
    x.GetOr(0.0)
  }

  /** The weight one cart line adds. */
  function LineWeight(item: CartItem): real {
    Measure(item.weight) * Count(item) as real
  }

  datatype Axis = Width | Length | Height

  /** An item's rounded-up size along one axis. */
  function Size(item: CartItem, axis: Axis): int {
    match axis
    case Width => Ceil(Measure(item.width))
    case Length => Ceil(Measure(item.length))
    case Height => Ceil(Measure(item.height))
  }

  function Along(m: Metrics, axis: Axis): int {
    match axis
    case Width => m.totalWidth
    case Length => m.totalLength
    case Height => m.totalHeight
  }

  /** The reducer's step: add one line to the parcel. */
  function AddLine(acc: Metrics, item: CartItem): Metrics {
    Metrics(acc.totalWeight + LineWeight(item),
            Max(acc.totalWidth, Size(item, Width)),
            Max(acc.totalLength, Size(item, Length)),
            Max(acc.totalHeight, Size(item, Height)))
  }

  /** `items.reduce(AddLine, NoParcel)`: a left fold over the cart. */
  function ParcelMetrics(items: seq<CartItem>): Metrics {
    if items == [] then NoParcel
    else AddLine(ParcelMetrics(items[..|items| - 1]), items[|items| - 1])
  }

  /** The weight of the cart lines from the first to the last, as a
      reference for the fold. */
  function WeightOf(items: seq<CartItem>): real {
    if items == [] then 0.0 else LineWeight(items[0]) + WeightOf(items[1..])
  }

  lemma {:induction false} WeightOfAppend(a: seq<CartItem>, b: seq<CartItem>)
    ensures WeightOf(a + b) == WeightOf(a) + WeightOf(b)
  {
    if a != [] {
      assert (a + b)[1..] == a[1..] + b;
      WeightOfAppend(a[1..], b);
    } else {
      assert a + b == b;
    }
  }

  /** The parcel weighs the sum of weight times quantity over the lines,
      where a zero quantity counts as 1 and a missing weight as 0; the
      empty cart gives the all-zero parcel. */
  lemma {:induction false} ParcelWeight(items: seq<CartItem>)
    ensures ParcelMetrics(items).totalWeight == WeightOf(items)
    ensures items == [] ==> ParcelMetrics(items) == Metrics(0.0, 0, 0, 0)
  {
    if items != [] {
      var init := items[..|items| - 1];
      var last := items[|items| - 1];
      assert items == init + [last];
      ParcelWeight(init);
      WeightOfAppend(init, [last]);
      assert WeightOf([last]) == LineWeight(last) by {
        assert [last][1..] == [];
      }
    }
  }

  /** Along each axis the parcel is the largest rounded-up item size,
      starting from 0: at least every item's size and at least 0, and equal
      to 0 or to some item's size. */
  lemma {:induction false} ParcelSize(items: seq<CartItem>, axis: Axis)
    ensures Along(ParcelMetrics(items), axis) >= 0
    ensures forall i :: 0 <= i < |items| ==> Along(ParcelMetrics(items), axis) >= Size(items[i], axis)
    ensures Along(ParcelMetrics(items), axis) == 0
         || exists i :: 0 <= i < |items| && Along(ParcelMetrics(items), axis) == Size(items[i], axis)
  {
    if items != [] {
      var init := items[..|items| - 1];
      var last := items[|items| - 1];
      ParcelSize(init, axis);
      var m := Along(ParcelMetrics(items), axis);
      assert m == Max(Along(ParcelMetrics(init), axis), Size(last, axis));
      forall i | 0 <= i < |items|
        ensures m >= Size(items[i], axis)
      {
        if i < |items| - 1 { assert items[i] == init[i]; }
      }
      if m != 0 && m != Size(last, axis) {
        var j :| 0 <= j < |init| && Along(ParcelMetrics(init), axis) == Size(init[j], axis);
        assert items[j] == init[j];
      }
    }
  }

  /** A cart whose lines all lack a weight gives a weightless parcel. */
  lemma {:induction false} WeightlessCart(items: seq<CartItem>)
    requires forall i :: 0 <= i < |items| ==> items[i].weight.None?
    ensures ParcelMetrics(items).totalWeight == 0.0
  {
    ParcelWeight(items);
    if items != [] {
      WeightlessCart(items[1..]);
      ParcelWeight(items[1..]);
    }
  }
}
