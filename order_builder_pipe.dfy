/** The order builder with its own inline stage list: four fluent setters,
    `pipe`, which appends stages, and `build`, which makes the base order from
    the current fields and folds the stages over it. The stages are invoked
    with two arguments here; see module Stages for the `.call` discrepancy of
    the original. */
module OrderBuilderPipe {
  import opened Interfaces
  import opened Stages
  import opened Samples
  import GenericPipe

  /** A stage of this builder: the base order and the running result give the
      next order; it may throw, so it is partial. */
  type OrderStageFactory = (Order, Order) --> Order

  class OrderBuilderImpl {
    var products: Option<seq<ProductInOrder>>
    var coupons: Option<seq<Coupon>>
    var username: Option<string>
    var deliveryAddress: Option<Address>
    var stageFactories: seq<OrderStageFactory>

    /** The fields `build` makes its base order from. */
    function Fields(): Order
      reads this
    {
      Order(products, coupons, username, deliveryAddress)
    }

    /** A new builder has no field set and an empty stage list. */
    constructor()
      ensures Fields() == EMPTY_ORDER && stageFactories == []
    {
      products, coupons, username, deliveryAddress := None, None, None, None;
      stageFactories := [];
    }

    method WithProducts(ps: seq<ProductInOrder>) returns (b: OrderBuilderImpl)
      modifies this
      ensures b == this
      ensures Fields() == old(Fields()).(products := Some(ps))
      ensures stageFactories == old(stageFactories)
    {
      products := Some(ps);
      b := this;
    }

    method WithCoupons(cs: seq<Coupon>) returns (b: OrderBuilderImpl)
      modifies this
      ensures b == this
      ensures Fields() == old(Fields()).(coupons := Some(cs))
      ensures stageFactories == old(stageFactories)
    {
      coupons := Some(cs);
      b := this;
    }

    method WithUsername(name: string) returns (b: OrderBuilderImpl)
      modifies this
      ensures b == this
      ensures Fields() == old(Fields()).(username := Some(name))
      ensures stageFactories == old(stageFactories)
    {
      username := Some(name);
      b := this;
    }

    method WithDeliveryAddress(address: Address) returns (b: OrderBuilderImpl)
      modifies this
      ensures b == this
      ensures Fields() == old(Fields()).(deliveryAddress := Some(address))
      ensures stageFactories == old(stageFactories)
    {
      deliveryAddress := Some(address);
      b := this;
    }

    /** Appends the stages after the registered ones, in argument order, and
        returns the same builder. */
    method Pipe(fs: seq<OrderStageFactory>) returns (b: OrderBuilderImpl)
      modifies this
      ensures b == this
      ensures stageFactories == old(stageFactories) + fs
      ensures Fields() == old(Fields())
    {
      stageFactories := stageFactories + fs;
      b := this;
    }

    /** With no stage, the base order made of the current fields; otherwise the
        last value of the trace that starts at the base order, every stage
        receiving the base order as `original` and the previous result as
        `current`. Neither the fields nor the stages change. */
    method Build() returns (o: Order)
      requires Runs(stageFactories, Fields(), Fields())
      ensures stageFactories == [] ==> o == Fields()
      ensures forall accs :: IsTrace(stageFactories, Fields(), accs) && accs[0] == Fields() ==>
        o == accs[|stageFactories|]
    {
      var originalOrder := Fields();
      if |stageFactories| == 0 {
        return originalOrder;
      }
      o := Fold(stageFactories, originalOrder, originalOrder);
      forall accs | IsTrace(stageFactories, originalOrder, accs) && accs[0] == originalOrder
        ensures o == accs[|stageFactories|]
      {
        TraceDeterminesFold(stageFactories, originalOrder, accs);
      }
    }
  }

  /** The script: the sample fields, then the seasonal offer and the promo,
      then build. Only the prices change; the Seat comes last, undiscounted.
      The script's two inline stages are the same as those of the generic
      pipe script, so they are taken from `GenericPipe.SampleStages`. */
  method Script() returns (o: Order)
    ensures o.products == Some([
      ProductInOrder("Bumper", 1.6, 10.0),
      ProductInOrder("LED Light", 160.0, 1.0),
      ProductInOrder("Fog Light", 0.4, 100.0),
      ProductInOrder("Seat", 0.0, 1.0)])
    ensures o.coupons == Some(SAMPLE_COUPONS) && o.username == Some("superuser177")
    ensures o.deliveryAddress == Some(SAMPLE_ADDRESS)
  {
    var builder := new OrderBuilderImpl();
    builder := builder.WithProducts(SAMPLE_PRODUCTS);
    builder := builder.WithCoupons(SAMPLE_COUPONS);
    builder := builder.WithUsername("superuser177");
    builder := builder.WithDeliveryAddress(SAMPLE_ADDRESS);
    builder := builder.Pipe(GenericPipe.SampleStages());
    GenericPipe.SampleStagesResult(builder.Fields());
    SampleSeasonalPromoProducts();
    o := builder.Build();
    ghost var accs := TraceOf(GenericPipe.SampleStages(), builder.Fields(), builder.Fields());
  }
}
