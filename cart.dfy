/** The entries of the shopping cart, as the cart store hands them to the
    navbar and, through `setCheckoutData`, to the checkout page. Prices are
    ringgit and weights and dimensions the store's units, all exact reals. */
module Cart {
  import opened Util

  /** One cart line. A numeric field the store may leave out is an `Option`. */
  datatype CartItem = CartItem(
    id: string,
    productId: string,
    variantId: Option<string>,
    variantOptionId: Option<string>,
    src: string,
    name: string,
    weight: Option<real>,
    width: Option<real>,
    length: Option<real>,
    height: Option<real>,
    currentPrice: Option<real>,
    unitPrice: real,
    quantity: int)

  /** `item.currentPrice ?? item.unitPrice`: the price the customer pays per unit. */
  function PayPrice(item: CartItem): (p: real)
    ensures item.currentPrice.Some? ==> p == item.currentPrice.value
    ensures item.currentPrice.None? ==> p == item.unitPrice
  {
    item.currentPrice.GetOr(item.unitPrice)
  }

  /** `(item.currentPrice ?? item.unitPrice) * item.quantity` */
  function LineTotal(item: CartItem): real {
    PayPrice(item) * item.quantity as real
  }
}
