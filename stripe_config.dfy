/** The product catalog the checkout uses (stripe-config.ts) and its two lookups. */
module StripeConfig {
  import opened Wrappers
  import opened Lists

  datatype Mode = Payment | Subscription

  /** `price` is in the currency's major unit, as written in the catalog. */
  datatype Product = Product(
    id: string, priceId: string, name: string, description: string,
    price: int, currency: string, mode: Mode)

  const EliteSportsComplex := Product(
    "prod_TwooVPZuQ46ZfP", "price_1SyvAv3FK8mPYUTPI6l8bYZ6", "Elite Sports Complex",
    "1 hour booking of futsal at Elite Sports Complex", 3800, "LKR", Payment)

  /** `stripeProducts` (stripe-config.ts:11-21). */
  const StripeProducts: seq<Product> := [EliteSportsComplex]

  /** `getProductByPriceId` (stripe-config.ts:23-25): the first catalog entry with that
      price id (`Lists.Find`). */
  function GetProductByPriceId(priceId: string): (r: Option<Product>)
    ensures r.None? <==> forall i :: 0 <= i < |StripeProducts| ==> StripeProducts[i].priceId != priceId
    ensures r.Some? ==> r.value.priceId == priceId
    ensures r.Some? ==> r.value in StripeProducts
  {
    Find(StripeProducts, (p: Product) => p.priceId == priceId)
  }

  /** `getProductById` (stripe-config.ts:27-28): the first catalog entry with that
      product id. */
  function GetProductById(id: string): (r: Option<Product>)
    ensures r.None? <==> forall i :: 0 <= i < |StripeProducts| ==> StripeProducts[i].id != id
    ensures r.Some? ==> r.value.id == id
    ensures r.Some? ==> r.value in StripeProducts
  {
    Find(StripeProducts, (p: Product) => p.id == id)
  }

  /** The catalog's one price id and one product id both find the Elite Sports Complex hour,
      3800 LKR as a one-off payment; any other id finds nothing. */
  lemma CatalogLookups(priceId: string, id: string)
    ensures GetProductByPriceId("price_1SyvAv3FK8mPYUTPI6l8bYZ6") == Some(EliteSportsComplex)
    ensures GetProductById("prod_TwooVPZuQ46ZfP") == Some(EliteSportsComplex)
    ensures EliteSportsComplex.price == 3800 && EliteSportsComplex.currency == "LKR" && EliteSportsComplex.mode == Payment
    ensures priceId != "price_1SyvAv3FK8mPYUTPI6l8bYZ6" ==> GetProductByPriceId(priceId).None?
    ensures id != "prod_TwooVPZuQ46ZfP" ==> GetProductById(id).None?
  {
    var byPrice := GetProductByPriceId("price_1SyvAv3FK8mPYUTPI6l8bYZ6");
    assert byPrice.Some?;
    var byId := GetProductById("prod_TwooVPZuQ46ZfP");
    assert byId.Some?;
  }
}
