/** The plain fluent order builder: four setters that each overwrite one
    field and return the builder, and `build`, which makes an `OrderImpl` from
    exactly the current fields. The builder keeps its fields after a build and
    can be built again. */
module PlainBuilder {
  import opened Interfaces
  import opened Samples
  import Orders

  class OrderBuilderImpl {
    var products: Option<seq<ProductInOrder>>
    var coupons: Option<seq<Coupon>>
    var username: Option<string>
    var deliveryAddress: Option<Address>

    function Fields(): Order
      reads this
    {
      Order(products, coupons, username, deliveryAddress)
    }

    /** A new builder has no field set. */
    constructor()
      ensures Fields() == EMPTY_ORDER
    {
      products, coupons, username, deliveryAddress := None, None, None, None;
    }

    method WithProducts(ps: seq<ProductInOrder>) returns (b: OrderBuilderImpl)
      modifies this
      ensures b == this
      ensures Fields() == old(Fields()).(products := Some(ps))
    {
      products := Some(ps);
      b := this;
    }

    method WithCoupons(cs: seq<Coupon>) returns (b: OrderBuilderImpl)
      modifies this
      ensures b == this
      ensures Fields() == old(Fields()).(coupons := Some(cs))
    {
      coupons := Some(cs);
      b := this;
    }

    method WithUsername(name: string) returns (b: OrderBuilderImpl)
      modifies this
      ensures b == this
      ensures Fields() == old(Fields()).(username := Some(name))
    {
      username := Some(name);
      b := this;
    }

    method WithDeliveryAddress(address: Address) returns (b: OrderBuilderImpl)
      modifies this
      ensures b == this
      ensures Fields() == old(Fields()).(deliveryAddress := Some(address))
    {
      deliveryAddress := Some(address);
      b := this;
    }

    /** A new order holding exactly the current fields, unset ones included,
        with its total not computed. The builder is not changed. */
    method Build() returns (o: Orders.OrderImpl)
      ensures fresh(o)
      ensures o.Snapshot() == Fields()
      ensures o.totalCost == None
    {
      o := new Orders.OrderImpl(products, coupons, username, deliveryAddress);
    }
  }

  /** Last write wins: setting the username twice keeps the second value. */
  method LastWriteWins() returns (o: Order)
    ensures o == Order(None, None, Some("b"), None)
  {
    var builder := new OrderBuilderImpl();
    builder := builder.WithUsername("a");
    builder := builder.WithUsername("b");
    var built := builder.Build();
    o := built.Snapshot();
  }

  /** The script: one builder with the sample fields is built for the
      superuser, then its username is changed and it is built again. The two
      orders differ only in the username. */
  method Script() returns (forSuperuser: Order, forAnotherUser: Order)
    ensures forSuperuser ==
      Order(Some(SAMPLE_PRODUCTS), Some(SAMPLE_COUPONS), Some("superuser177"), Some(SAMPLE_ADDRESS))
    ensures forAnotherUser == forSuperuser.(username := Some("anotheruser"))
  {
    var builder := new OrderBuilderImpl();
    builder := builder.WithProducts(SAMPLE_PRODUCTS);
    builder := builder.WithCoupons(SAMPLE_COUPONS);
    builder := builder.WithUsername("superuser177");
    builder := builder.WithDeliveryAddress(SAMPLE_ADDRESS);
    var first := builder.Build();
    builder := builder.WithUsername("anotheruser");
    var second := builder.Build();
    forSuperuser, forAnotherUser := first.Snapshot(), second.Snapshot();
  }
}
