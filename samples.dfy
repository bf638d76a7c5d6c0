/** The hard-coded data the original's scripts build their orders from, and
    the totals the pricing rule gives for it. */
module Samples {
  import opened Interfaces
  import opened Pricing

  const SAMPLE_PRODUCTS: seq<ProductInOrder> := [
    ProductInOrder("Bumper", 2.0, 10.0),
    ProductInOrder("LED Light", 200.0, 1.0),
    ProductInOrder("Fog Light", 0.5, 100.0)
  ]

  /** One 15% coupon. Its expiry date is read from the clock in the original;
      pricing never reads it, so it is a fixed number here. */
  const SAMPLE_COUPONS: seq<Coupon> := [Coupon("TEAL", 0.15, 0)]

  const SAMPLE_ADDRESS: Address :=
    Address("Armenia", None, "Yerevan", "Bagramian", "some-house", "some-apartment")

  /** 10 x 2 + 1 x 200 + 100 x 0.5 = 270, and 270 x 0.85 = 229.5. */
  lemma SampleTotals()
    ensures BaseCost(SAMPLE_PRODUCTS) == 270.0
    ensures TotalCost(SAMPLE_PRODUCTS, SAMPLE_COUPONS) == 229.5
  {
  }

  /** The seasonal offer followed by the promo, on the sample products. */
  lemma SampleSeasonalPromoProducts()
    ensures SeasonalPrices(SAMPLE_PRODUCTS) + [SEAT] == [
      ProductInOrder("Bumper", 1.6, 10.0),
      ProductInOrder("LED Light", 160.0, 1.0),
      ProductInOrder("Fog Light", 0.4, 100.0),
      ProductInOrder("Seat", 0.0, 1.0)
    ]
  {
  }
}
