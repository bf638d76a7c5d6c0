/** The order builder with two named stages: `withSeasonalOffer` turns on a
    20% price cut and `withPromo` sets the promo list to one free Seat. `build`
    applies both to a new product list (the cut first, then the promo items)
    and makes an `OrderImpl` of it. */
module SeasonBuilder {
  import opened Interfaces
  import opened Pricing
  import opened Samples
  import opened Stages
  import Orders
  import GenericPipe

  /** The product list `build` produces: the products, cut by 20% when the
      offer is on, followed by the promo items, which are never cut. */
  function ProductsAtBuild(ps: seq<ProductInOrder>, seasonalOffer: bool, promo: seq<ProductInOrder>)
    : (r: seq<ProductInOrder>)
    ensures |r| == |ps| + |promo|
    ensures forall i :: 0 <= i < |ps| ==>
      r[i].name == ps[i].name && r[i].quantity == ps[i].quantity &&
      r[i].price == (if seasonalOffer then ps[i].price * 0.8 else ps[i].price)
    ensures r[|ps|..] == promo
  {
    (if seasonalOffer then SeasonalPrices(ps) else ps) + promo
  }

  /** The cost of the built product list: the base cost, cut by 20% under the
      offer, plus the cost of the promo items. */
  lemma {:induction false} ProductsAtBuildCost(ps: seq<ProductInOrder>, seasonalOffer: bool, promo: seq<ProductInOrder>)
    ensures BaseCost(ProductsAtBuild(ps, seasonalOffer, promo)) ==
      (if seasonalOffer then 0.8 * BaseCost(ps) else BaseCost(ps)) + BaseCost(promo)
  {
    SumAppend(if seasonalOffer then SeasonalPrices(ps) else ps, promo);
    if seasonalOffer {
      SeasonalBaseCost(ps);
    }
  }

  /** The named stages and the two sample pipeline stages agree: the seasonal
      stage followed by the promo stage gives the order whose products are
      those the offer and the promo build, every other field unchanged. */
  lemma NamedStagesMatchPipeline(o: Order)
    requires o.products.Some?
    ensures Runs(GenericPipe.SampleStages(), o, o)
    ensures Fold(GenericPipe.SampleStages(), o, o) ==
      o.(products := Some(ProductsAtBuild(o.products.value, true, [SEAT])))
  {
  }

  class OrderBuilderImpl {
    var products: Option<seq<ProductInOrder>>
    var coupons: Option<seq<Coupon>>
    var username: Option<string>
    var deliveryAddress: Option<Address>
    /** Unset until withSeasonalOffer; unset counts as off. */
    var seasonalOffer: Option<bool>
    /** Unset until withPromo. */
    var promoProducts: Option<seq<ProductInOrder>>

    function Fields(): Order
      reads this
    {
      Order(products, coupons, username, deliveryAddress)
    }

    predicate OfferOn()
      reads this
    {
      seasonalOffer == Some(true)
    }

    /** A new builder has no field set, the offer off and no promo list. */
    constructor()
      ensures Fields() == EMPTY_ORDER
      ensures seasonalOffer == None && !OfferOn() && promoProducts == None
    {
      products, coupons, username, deliveryAddress := None, None, None, None;
      seasonalOffer, promoProducts := None, None;
    }

    method WithProducts(ps: seq<ProductInOrder>) returns (b: OrderBuilderImpl)
      modifies this
      ensures b == this
      ensures Fields() == old(Fields()).(products := Some(ps))
      ensures seasonalOffer == old(seasonalOffer) && promoProducts == old(promoProducts)
    {
      products := Some(ps);
      b := this;
    }

    method WithCoupons(cs: seq<Coupon>) returns (b: OrderBuilderImpl)
      modifies this
      ensures b == this
      ensures Fields() == old(Fields()).(coupons := Some(cs))
      ensures seasonalOffer == old(seasonalOffer) && promoProducts == old(promoProducts)
    {
      coupons := Some(cs);
      b := this;
    }

    method WithUsername(name: string) returns (b: OrderBuilderImpl)
      modifies this
      ensures b == this
      ensures Fields() == old(Fields()).(username := Some(name))
      ensures seasonalOffer == old(seasonalOffer) && promoProducts == old(promoProducts)
    {
      username := Some(name);
      b := this;
    }

    method WithDeliveryAddress(address: Address) returns (b: OrderBuilderImpl)
      modifies this
      ensures b == this
      ensures Fields() == old(Fields()).(deliveryAddress := Some(address))
      ensures seasonalOffer == old(seasonalOffer) && promoProducts == old(promoProducts)
    {
      deliveryAddress := Some(address);
      b := this;
    }

    /** Turns the offer on, whatever it was before; calling it again changes nothing. */
    method WithSeasonalOffer() returns (b: OrderBuilderImpl)
      modifies this
      ensures b == this
      ensures seasonalOffer == Some(true) && OfferOn()
      ensures Fields() == old(Fields()) && promoProducts == old(promoProducts)
    {
      seasonalOffer := Some(true);
      b := this;
    }

    /** Replaces the promo list by exactly one Seat: calling it again still
        leaves one Seat. */
    method WithPromo() returns (b: OrderBuilderImpl)
      modifies this
      ensures b == this
      ensures promoProducts == Some([SEAT])
      ensures Fields() == old(Fields()) && seasonalOffer == old(seasonalOffer)
    {
      promoProducts := Some([SEAT]);
      b := this;
    }

    /** Both branches read the products, and the promo list's length is read
        unconditionally, so both must be set (the original throws otherwise).
        The builder's own product list is left as it was: the result is a new
        list. Coupons, username and address pass through unchanged. */
    method Build() returns (o: Orders.OrderImpl)
      requires products.Some? && promoProducts.Some?
      ensures fresh(o) && o.totalCost == None
      ensures o.products == Some(ProductsAtBuild(products.value, OfferOn(), promoProducts.value))
      ensures o.coupons == coupons && o.username == username && o.deliveryAddress == deliveryAddress
    {
      var built := if OfferOn() then SeasonalPrices(products.value) else products.value;
      if |promoProducts.value| > 0 {
        built := built + promoProducts.value;
      }
      assert built == ProductsAtBuild(products.value, OfferOn(), promoProducts.value);
      o := new Orders.OrderImpl(Some(built), coupons, username, deliveryAddress);
    }
  }

  /** A builder with the offer on and the promo set builds the same order as
      the pipe builders do with the two sample stages over the same fields. */
  method BuildMatchesPipeline(builder: OrderBuilderImpl) returns (o: Order)
    requires builder.products.Some? && builder.OfferOn() && builder.promoProducts == Some([SEAT])
    ensures Runs(GenericPipe.SampleStages(), builder.Fields(), builder.Fields())
    ensures o == Fold(GenericPipe.SampleStages(), builder.Fields(), builder.Fields())
  {
    var built := builder.Build();
    NamedStagesMatchPipeline(builder.Fields());
    o := built.Snapshot();
  }

  /** The script: the sample fields, the offer and the promo, then build. */
  method Script() returns (o: Order)
    ensures o.products == Some([
      ProductInOrder("Bumper", 1.6, 10.0),
      ProductInOrder("LED Light", 160.0, 1.0),
      ProductInOrder("Fog Light", 0.4, 100.0),
      ProductInOrder("Seat", 0.0, 1.0)])
    ensures o.coupons == Some(SAMPLE_COUPONS) && o.username == Some("superuser177")
    ensures o.deliveryAddress == Some(SAMPLE_ADDRESS)
  {
    var builder := new OrderBuilderImpl();
    builder := builder.WithProducts(SAMPLE_PRODUCTS);
    builder := builder.WithCoupons(SAMPLE_COUPONS);
    builder := builder.WithUsername("superuser177");
    builder := builder.WithDeliveryAddress(SAMPLE_ADDRESS);
    builder := builder.WithSeasonalOffer();
    builder := builder.WithPromo();
    var built := builder.Build();
    SampleSeasonalPromoProducts();
    o := built.Snapshot();
  }
}
