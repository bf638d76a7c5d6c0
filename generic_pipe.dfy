/** The order builder that extends the generic pipe builder: four fluent
    setters, `pipe` inherited from the base, and `build`, which makes the base
    order from the current fields and runs the registered stages over it.
    Inheritance is modelled by composition: the builder owns an
    `AbstractBasePipeBuilder<Order>` that holds its stage list. */
module GenericPipe {
  import opened Interfaces
  import opened Pricing
  import opened Stages
  import opened Samples

  type Stage = (Order, Order) --> Order

  /** The sample seasonal offer: the ORIGINAL order's products at 80% of
      their price, every other field taken from the current order. Reading an
      unset product list throws in the original. */
  function SeasonalOfferStage(original: Order, current: Order): (r: Order)
    requires original.products.Some?
    ensures r.products.Some? && |r.products.value| == |original.products.value|
    ensures r.products == Some(SeasonalPrices(original.products.value))
    ensures r.coupons == current.coupons && r.username == current.username
    ensures r.deliveryAddress == current.deliveryAddress
  {
    current.(products := Some(SeasonalPrices(original.products.value)))
  }

  /** The sample promo: the CURRENT order's products followed by one free Seat,
      every other field taken from the current order. */
  function PromoStage(original: Order, current: Order): (r: Order)
    requires current.products.Some?
    ensures r.products == Some(current.products.value + [SEAT])
    ensures r.coupons == current.coupons && r.username == current.username
    ensures r.deliveryAddress == current.deliveryAddress
  {
    current.(products := Some(current.products.value + [SEAT]))
  }

  /** The two sample stages in the order the script registers them. */
  function SampleStages(): (s: seq<Stage>)
    ensures |s| == 2
  {
    [SeasonalOfferStage, PromoStage]
  }

  /** The sample stages run on any order whose products are set, and give the
      discounted products followed by an undiscounted Seat; the other fields
      are those of the base order. */
  lemma SampleStagesResult(o: Order)
    requires o.products.Some?
    ensures Runs(SampleStages(), o, o)
    ensures Fold(SampleStages(), o, o) == o.(products := Some(SeasonalPrices(o.products.value) + [SEAT]))
  {
  }

  /** The seasonal stage reads `original`, so whatever earlier stages did to
      the products is discarded: after it the products are exactly the
      original ones discounted. */
  lemma SeasonalOfferIgnoresEarlierStages(earlier: seq<Stage>, o: Order)
    requires o.products.Some?
    requires Runs(earlier, o, o)
    ensures Runs(earlier + [SeasonalOfferStage], o, o)
    ensures Fold(earlier + [SeasonalOfferStage], o, o).products == Some(SeasonalPrices(o.products.value))
  {
    var single: seq<Stage> := [SeasonalOfferStage];
    var mid := Fold(earlier, o, o);
    assert single[1..] == [];
    assert Runs(single, o, mid);
    FoldAppend(earlier, single, o, o);
  }

  class OrderBuilderImpl {
    const pipeline: AbstractBasePipeBuilder<Order>
    var products: Option<seq<ProductInOrder>>
    var coupons: Option<seq<Coupon>>
    var username: Option<string>
    var deliveryAddress: Option<Address>

    /** The fields `build` makes its base order from. */
    function Fields(): Order
      reads this
    {
      Order(products, coupons, username, deliveryAddress)
    }

    /** A new builder has no field set and no stage. */
    constructor()
      ensures Fields() == EMPTY_ORDER
      ensures fresh(pipeline) && pipeline.stageFactories == []
    {
      products, coupons, username, deliveryAddress := None, None, None, None;
      pipeline := new AbstractBasePipeBuilder<Order>();
    }

    method WithProducts(ps: seq<ProductInOrder>) returns (b: OrderBuilderImpl)
      modifies this
      ensures b == this
      ensures Fields() == old(Fields()).(products := Some(ps))
      ensures pipeline.stageFactories == old(pipeline.stageFactories)
    {
      products := Some(ps);
      b := this;
    }

    method WithCoupons(cs: seq<Coupon>) returns (b: OrderBuilderImpl)
      modifies this
      ensures b == this
      ensures Fields() == old(Fields()).(coupons := Some(cs))
      ensures pipeline.stageFactories == old(pipeline.stageFactories)
    {
      coupons := Some(cs);
      b := this;
    }

    method WithUsername(name: string) returns (b: OrderBuilderImpl)
      modifies this
      ensures b == this
      ensures Fields() == old(Fields()).(username := Some(name))
      ensures pipeline.stageFactories == old(pipeline.stageFactories)
    {
      username := Some(name);
      b := this;
    }

    method WithDeliveryAddress(address: Address) returns (b: OrderBuilderImpl)
      modifies this
      ensures b == this
      ensures Fields() == old(Fields()).(deliveryAddress := Some(address))
      ensures pipeline.stageFactories == old(pipeline.stageFactories)
    {
      deliveryAddress := Some(address);
      b := this;
    }

    /** The inherited `pipe`: appends the stages after the registered ones and
        returns the same builder; the fields are untouched. */
    method Pipe(fs: seq<Stage>) returns (b: OrderBuilderImpl)
      modifies pipeline
      ensures b == this
      ensures pipeline.stageFactories == old(pipeline.stageFactories) + fs
      ensures Fields() == old(Fields())
    {
      var _ := pipeline.Pipe(fs);
      b := this;
    }

    /** The base order is made of the current fields; the result is the last
        value of the trace that starts at it, every stage receiving the base
        order as `original`. Neither the fields nor the stages change, so a
        second build gives the same order. */
    method Build() returns (o: Order)
      requires Runs(pipeline.stageFactories, Fields(), Fields())
      ensures pipeline.stageFactories == [] ==> o == Fields()
      ensures forall accs :: IsTrace(pipeline.stageFactories, Fields(), accs) && accs[0] == Fields() ==>
        o == accs[|pipeline.stageFactories|]
    {
      var originalOrder := Fields();
      o := pipeline.ExecutePipe(originalOrder);
      forall accs | IsTrace(pipeline.stageFactories, originalOrder, accs) && accs[0] == originalOrder
        ensures o == accs[|pipeline.stageFactories|]
      {
        TraceDeterminesFold(pipeline.stageFactories, originalOrder, accs);
      }
    }
  }

  /** Building twice in a row gives equal orders: build reads the builder
      without changing it. */
  method BuildTwice(builder: OrderBuilderImpl) returns (first: Order, second: Order)
    requires Runs(builder.pipeline.stageFactories, builder.Fields(), builder.Fields())
    ensures first == second
    ensures builder.pipeline.stageFactories == [] ==> first == builder.Fields()
  {
    first := builder.Build();
    second := builder.Build();
    ghost var accs := TraceOf(builder.pipeline.stageFactories, builder.Fields(), builder.Fields());
  }

  /** The script: the sample fields, then the two sample stages, then build.
      The products come out as Bumper 1.6 x 10, LED Light 160 x 1,
      Fog Light 0.4 x 100 and Seat 0 x 1; the rest is as set. */
  method Script() returns (o: Order)
    ensures o.products == Some([
      ProductInOrder("Bumper", 1.6, 10.0),
      ProductInOrder("LED Light", 160.0, 1.0),
      ProductInOrder("Fog Light", 0.4, 100.0),
      ProductInOrder("Seat", 0.0, 1.0)])
    ensures o.coupons == Some(SAMPLE_COUPONS) && o.username == Some("superuser177")
    ensures o.deliveryAddress == Some(SAMPLE_ADDRESS)
  {
    var builder := new OrderBuilderImpl();
    builder := builder.WithProducts(SAMPLE_PRODUCTS);
    builder := builder.WithCoupons(SAMPLE_COUPONS);
    builder := builder.WithUsername("superuser177");
    builder := builder.WithDeliveryAddress(SAMPLE_ADDRESS);
    builder := builder.Pipe(SampleStages());
    SampleStagesResult(builder.Fields());
    SampleSeasonalPromoProducts();
    o := builder.Build();
    ghost var accs := TraceOf(SampleStages(), builder.Fields(), builder.Fields());
  }
}
