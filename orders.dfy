/** `OrderImpl` as the four builder variants declare it: it stores its four
    fields and leaves `totalCost` unset; `computeTotalCost` would fill it in,
    but nothing in those files calls it. */
module Orders {
  import opened Interfaces
  import opened Pricing

  class OrderImpl {
    var products: Option<seq<ProductInOrder>>
    var coupons: Option<seq<Coupon>>
    var username: Option<string>
    var deliveryAddress: Option<Address>
    /** Unset until computeTotalCost runs. */
    var totalCost: Option<real>

    /** The four public fields as one value. */
    function Snapshot(): Order
      reads this
    {
      Order(products, coupons, username, deliveryAddress)
    }

    /** Stores the four arguments unchanged and does not compute the total. */
    constructor(
      products: Option<seq<ProductInOrder>>,
      coupons: Option<seq<Coupon>>,
      username: Option<string>,
      deliveryAddress: Option<Address>)
      ensures Snapshot() == Order(products, coupons, username, deliveryAddress)
      ensures totalCost == None
    {
      this.products := products;
      this.coupons := coupons;
      this.username := username;
      this.deliveryAddress := deliveryAddress;
      this.totalCost := None;
    }

    /** Sets totalCost to the sum of the line costs times the compounding
        coupon discounts. Both lists must be set: folding over an unset list
        throws in the original. */
    method ComputeTotalCost()
      requires products.Some? && coupons.Some?
      modifies this`totalCost
      ensures totalCost == Some(TotalCost(products.value, coupons.value))
      ensures totalCost.value == Sum(products.value) * Factor(coupons.value)
    {
      totalCost := Some(TotalCost(products.value, coupons.value));
    }
  }
}

/** The simplest `OrderImpl`: products only. The constructor stores them;
    `computeTotalCost` sets the total to the plain sum, with no coupons. */
module SimpleOrder {
  import opened Interfaces
  import opened Pricing
  import opened Samples

  class OrderImpl {
    var products: seq<ProductInOrder>
    /** Unset until computeTotalCost runs; the constructor does not call it. */
    var totalCost: Option<real>

    constructor(products: seq<ProductInOrder>)
      ensures this.products == products && totalCost == None
    {
      this.products := products;
      totalCost := None;
    }

    method ComputeTotalCost()
      modifies this`totalCost
      ensures totalCost == Some(BaseCost(products))
      ensures products == [] ==> totalCost == Some(0.0)
    {
      totalCost := Some(BaseCost(products));
    }
  }

  /** The order of the script, built from the sample products: construction
      leaves the total unset (the script never computes it); computeTotalCost,
      once run, stores 270. */
  method Script() returns (before: Option<real>, after: Option<real>)
    ensures before == None && after == Some(270.0)
  {
    var order := new OrderImpl(SAMPLE_PRODUCTS);
    before := order.totalCost;
    order.ComputeTotalCost();
    after := order.totalCost;
    SampleTotals();
  }
}

/** The `OrderImpl` whose constructor computes the total eagerly: sum of the
    line costs, then one multiplication by (1 - discount) per coupon. */
module EagerOrder {
  import opened Interfaces
  import opened Pricing
  import opened Samples

  class OrderImpl {
    var products: seq<ProductInOrder>
    var coupons: seq<Coupon>
    var username: string
    var deliveryAddress: Address
    var totalCost: real

    constructor(products: seq<ProductInOrder>, coupons: seq<Coupon>, username: string, deliveryAddress: Address)
      ensures this.products == products && this.coupons == coupons
      ensures this.username == username && this.deliveryAddress == deliveryAddress
      ensures totalCost == TotalCost(products, coupons)
    {
      this.products := products;
      this.coupons := coupons;
      this.username := username;
      this.deliveryAddress := deliveryAddress;
      totalCost := 0.0;
      new;
      ComputeTotalCost();
    }

    method ComputeTotalCost()
      modifies this`totalCost
      ensures totalCost == TotalCost(products, coupons)
      ensures totalCost == Sum(products) * Factor(coupons)
    {
      totalCost := TotalCost(products, coupons);
    }
  }

  /** The script: two orders from the sample data for two users, each priced
      at construction at 270 x 0.85. */
  method Script() returns (another: real, superuser: real)
    ensures another == 229.5 && superuser == 229.5
  {
    var forAnotherUser := new OrderImpl(SAMPLE_PRODUCTS, SAMPLE_COUPONS, "anotherUser", SAMPLE_ADDRESS);
    var forSuperuser := new OrderImpl(SAMPLE_PRODUCTS, SAMPLE_COUPONS, "superuser177", SAMPLE_ADDRESS);
    SampleTotals();
    another, superuser := forAnotherUser.totalCost, forSuperuser.totalCost;
  }
}
