/** The product catalog as the listing pages show it
    (app/shop-our-products/page.tsx; the home page carousel in
    components/sections/Products.tsx applies the same rules): which products
    are displayed, and which price each shows. */
module Catalog {
  import opened Util

  /** The status flags of a product; a flag the record leaves out is false. */
  datatype ProductStatus = ProductStatus(isHidden: bool, isDisabled: bool, isPromo: bool, isBestSeller: bool)

  /** The priced leaf of a product: one option of one variant. */
  datatype PriceOption = PriceOption(originalPrice: Option<real>, currentPrice: Option<real>, unitPrice: Option<real>)

  /** A variant; a missing `options` array is the empty sequence. */
  datatype Variant = Variant(options: seq<PriceOption>)

  /** A product; a missing `variants` array is the empty sequence. */
  datatype Product = Product(id: string, name: string, currency: string, status: Option<ProductStatus>, variants: seq<Variant>)

  /** `!item.status?.isHidden && !item.status?.isDisabled` */
  predicate IsVisible(p: Product) {
    !(p.status.Some? && (p.status.value.isHidden || p.status.value.isDisabled))
  }

  /** The products a listing displays: the fetched list filtered by `IsVisible`. */
  function VisibleProducts(products: seq<Product>): seq<Product> {
    Filter(products, IsVisible)
  }

  /** The displayed products are exactly those neither hidden nor disabled,
      in the fetched order: a concatenation displays as its parts in turn,
      and a list with no hidden or disabled product is displayed whole. */
  lemma VisibleProductsSpec(a: seq<Product>, b: seq<Product>)
    ensures forall p :: p in VisibleProducts(a) <==>
      p in a && !(p.status.Some? && p.status.value.isHidden) && !(p.status.Some? && p.status.value.isDisabled)
    ensures VisibleProducts(a + b) == VisibleProducts(a) + VisibleProducts(b)
    ensures (forall i :: 0 <= i < |a| ==> IsVisible(a[i])) ==> VisibleProducts(a) == a
  {
    FilterAppend(a, b, IsVisible);
    if forall i :: 0 <= i < |a| ==> IsVisible(a[i]) {
      FilterKeepsAll(a, IsVisible);
    }
  }

  /** `item.variants?.[0]?.options?.[0]` */
  function FirstOption(p: Product): Option<PriceOption> {
    if |p.variants| > 0 && |p.variants[0].options| > 0 then Some(p.variants[0].options[0]) else None
  }

  /** A price is truthy when present and not 0 (NaN is not modelled). */
  predicate TruthyPrice(x: Option<real>) {
    x.Some? && x.value != 0.0
  }

  /** What a product card shows as its price. */
  datatype PriceTag =
    | Promo(original: real, sale: real)  // struck-through original, then the sale price
    | Regular(price: real)

  /** The price shown on a product card. */
  function PriceShown(p: Product): (tag: PriceTag)
    ensures tag.Promo? ==> p.status.Some? && p.status.value.isPromo && tag.original != 0.0
    ensures FirstOption(p).None? ==> tag == Regular(0.0)
    ensures p.status.None? || !p.status.value.isPromo ==> tag.Regular?
  {
    var option := FirstOption(p);
    if p.status.Some? && p.status.value.isPromo && option.Some? && TruthyPrice(option.value.originalPrice) then
      Promo(option.value.originalPrice.value,
            option.value.currentPrice.GetOr(option.value.unitPrice.GetOr(0.0)))
    else
      Regular(if option.Some? then option.value.unitPrice.GetOr(0.0) else 0.0)
  }

  /** The promo display is chosen exactly for a promo product whose first
      option has a non-zero original price; in particular an original price
      of 0 falls back to the regular display. */
  lemma PromoDisplayIff(p: Product)
    ensures PriceShown(p).Promo? <==>
      (p.status.Some? && p.status.value.isPromo
       && |p.variants| > 0 && |p.variants[0].options| > 0
       && p.variants[0].options[0].originalPrice.Some?
       && p.variants[0].options[0].originalPrice.value != 0.0)
    ensures (|p.variants| > 0 && |p.variants[0].options| > 0 && p.variants[0].options[0].originalPrice == Some(0.0))
        ==> PriceShown(p).Regular?
  {
  }

  /** The promo sale price is the option's current price, else its unit
      price, else 0; the struck-through price is the original price. */
  lemma PromoSalePrice(p: Product)
    requires PriceShown(p).Promo?
    ensures var o := p.variants[0].options[0];
      && PriceShown(p).original == o.originalPrice.value
      && (o.currentPrice.Some? ==> PriceShown(p).sale == o.currentPrice.value)
      && (o.currentPrice.None? && o.unitPrice.Some? ==> PriceShown(p).sale == o.unitPrice.value)
      && (o.currentPrice.None? && o.unitPrice.None? ==> PriceShown(p).sale == 0.0)
  {
  }

  /** The regular price is the first option's unit price, or 0 when the
      variants, the options or the unit price are missing. */
  lemma RegularPrice(p: Product)
    requires PriceShown(p).Regular?
    ensures (|p.variants| == 0 || |p.variants[0].options| == 0) ==> PriceShown(p).price == 0.0
    ensures |p.variants| > 0 && |p.variants[0].options| > 0 ==>
      PriceShown(p).price == p.variants[0].options[0].unitPrice.GetOr(0.0)
  {
  }
}
