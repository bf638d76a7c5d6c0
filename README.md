# Order builders and pipelines, modelled in Dafny

The repository builds an `Order` (products, coupons, username, delivery
address) in six ways and prices it. This project models all six:

- `Pricing` (pricing.dfy): the `computeTotalCost` rule. The base cost is the
  sum of price × quantity, starting at 0. Each coupon then multiplies the
  running total by (1 − discount), in list order. Both folds are written as
  the accumulator recursions that `reduce` performs. Lemmas relate them to
  the closed forms Σ and Π, and prove the ordering, bounds and special-coupon
  properties.
- `Orders`, `SimpleOrder`, `EagerOrder` (orders.dfy): the three kinds of
  `OrderImpl`. The one the builder files share stores its fields and leaves
  `totalCost` unset. The products-only one computes a plain sum. The eager one
  computes the discounted total in its constructor.
- `Stages` (stages.dfy): the stage pipeline. A stage is a partial function
  `(original, current) --> Order`. `Fold` is the left fold, and `IsTrace` is
  an independent reference definition listing the intermediate results.
  `AbstractBasePipeBuilder` is the generic class holding the stage list.
- `GenericPipe`, `OrderBuilderPipe` (generic_pipe.dfy, order_builder_pipe.dfy):
  the two pipe builders and the two sample stages (seasonal offer, promo Seat).
  The inline stages of the order-builder-pipe script are textually the same as
  those of the generic pipe script, so both scripts use `GenericPipe.SampleStages`;
  `OrderBuilderPipe` has its own `OrderStageFactory` type.
- `PlainBuilder` (order_builder.dfy): the plain fluent builder, which can be
  reused after `build`.
- `SeasonBuilder` (order_builder_season.dfy): the builder with the named
  toggles `withSeasonalOffer` and `withPromo`. A lemma shows that the two
  sample pipeline stages applied in order give the whole order the named
  toggles build, and `BuildMatchesPipeline` shows that the builder's `Build`
  returns exactly that order.
- `Samples` (samples.dfy): the scripts' hard-coded data. Each variant module
  has a `Script` method that replays its file's script against the class
  contracts.

The builders are classes with mutable fields. Unset fields (`undefined` in the
original) are `None`. Every `with*` method ensures that exactly one field
changed and that it returns the same builder. `pipe` ensures that the new
stage list is the old one followed by its arguments. The pipe builders'
`Build` ties its result to the trace of the fold, starting from the base
order made of the current fields. No `Build` has a `modifies` clause, so
building never changes the builder.

Two facts about the code that the model keeps as written:
- The sample data prices at 10 × 2 + 1 × 200 + 100 × 0.5 = 270, and at
  229.5 after the 15% coupon.
- The builder variants never compute `totalCost`: `computeTotalCost` is
  private and never called there. The model keeps it unset after `build`;
  only the eager `OrderImpl` of src/no-builder/order-more-complex.ts computes
  it on construction.

The stage call `stageFactory.call(this, [source, current])`
(src/pipe/generic-pipe.ts:46, src/pipe/order-builder-pipe.ts:70) passes one
array argument instead of two. At run time a stage therefore receives the
array as `original` and `undefined` as `current`, and the sample stages
would throw. The model passes the two arguments the stage type declares
and the sample stages expect. The comment at the head of module `Stages`
records this.

## Model

| member | source | states |
|---|---|---|
| Pricing.SumFrom | src/no-builder/order.ts:15 | the first `reduce`, one line at a time from the accumulator; characterized by `SumFromIsSum` |
| Pricing.ApplyCoupons | src/no-builder/order-more-complex.ts:25 | the coupon `reduce`, one coupon at a time in list order; characterized by `ApplyCouponsIsProduct` |
| Pricing.BaseCost | src/no-builder/order.ts:15 | the sum fold started at 0 equals Σ price × quantity over the products |
| Pricing.SumFromIsSum | src/no-builder/order-more-complex.ts:23 | the sum fold from any accumulator is that accumulator plus Σ of the line costs |
| Pricing.ApplyCouponsIsProduct | src/no-builder/order-more-complex.ts:25 | the coupon fold from a total is that total times Π (1 − discount) |
| Pricing.TotalCost | src/no-builder/order-more-complex.ts:22-26 | the total is Σ price × quantity times Π (1 − discount); with no coupons it is the base cost |
| Pricing.SumAppend | src/no-builder/order.ts:15 | the base cost of two concatenated product lists is the sum of their base costs |
| Pricing.BaseCostAppend | src/no-builder/order.ts:15 | an empty product list costs 0; appending a line adds exactly its price × quantity |
| Pricing.BaseCostNonNegative | src/no-builder/order.ts:15 | non-negative prices and quantities give a non-negative base cost |
| Pricing.SumRemoveAt | src/no-builder/order-more-complex.ts:23 | the base cost is any one line's cost plus the cost of the other lines |
| Pricing.BaseCostPermutation | src/no-builder/order-more-complex.ts:23 | two product lists with the same lines in any order have the same base cost |
| Pricing.ApplyCouponsAppend | src/no-builder/order-more-complex.ts:25 | coupons apply in list order: a split list is its second part applied to the result of the first |
| Pricing.TwoHalfCouponsLeaveAQuarter | src/no-builder/order-more-complex.ts:25 | discounts compound multiplicatively: two 50% coupons leave a quarter of the total |
| Pricing.ZeroDiscountIsNeutral | src/no-builder/order-more-complex.ts:25 | removing a coupon with discount 0 leaves the total unchanged |
| Pricing.FullDiscountZeroes | src/no-builder/order-more-complex.ts:25 | a coupon with discount 1 anywhere in the list makes the total 0 |
| Pricing.FactorHasZero | src/no-builder/order-more-complex.ts:25 | Π (1 − discount) is 0 when some coupon has discount 1 |
| Pricing.FactorBounds | src/no-builder/order-more-complex.ts:25 | with every discount in [0, 1], Π (1 − discount) lies in [0, 1] |
| Pricing.TotalCostBounds | src/no-builder/order-more-complex.ts:23-25 | with non-negative prices and quantities and discounts in [0, 1], 0 ≤ total ≤ base cost |
| Pricing.SeasonalPrices | src/builder/order-builder-season.ts:68-69 | the price cut keeps length, order, names and quantities, and sets every price to price × 0.8 |
| Pricing.SeasonalBaseCost | src/builder/order-builder-season.ts:68-69 | the price cut lowers the base cost to exactly 80% |
| Samples.SampleTotals | src/no-builder/order-more-complex.ts:29-37 | the sample products cost 270, and 229.5 after the 15% coupon |
| Samples.SampleSeasonalPromoProducts | src/pipe/order-builder-pipe.ts:117-135 | the price cut then the Seat on the sample products give Bumper 1.6 × 10, LED Light 160 × 1, Fog Light 0.4 × 100, Seat 0 × 1 |
| Orders.OrderImpl.constructor | src/builder/order-builder.ts:58-63 | the order stores the four arguments unchanged and leaves totalCost unset |
| Orders.OrderImpl.ComputeTotalCost | src/builder/order-builder.ts:65-69 | needs products and coupons set; stores Σ price × quantity times Π (1 − discount) in totalCost and changes nothing else |
| SimpleOrder.OrderImpl.constructor | src/no-builder/order.ts:10-12 | stores the products and leaves totalCost unset |
| SimpleOrder.OrderImpl.ComputeTotalCost | src/no-builder/order.ts:14-16 | stores the base cost in totalCost (0 for no products) |
| SimpleOrder.Script | src/no-builder/order.ts:19-25 | the sample order's total is unset after construction, and 270 once computed |
| EagerOrder.OrderImpl.constructor | src/no-builder/order-more-complex.ts:13-20 | stores the four arguments unchanged and computes totalCost eagerly |
| EagerOrder.OrderImpl.ComputeTotalCost | src/no-builder/order-more-complex.ts:22-26 | sets totalCost to Σ price × quantity times Π (1 − discount) |
| EagerOrder.Script | src/no-builder/order-more-complex.ts:47-59 | both sample orders are priced at 229.5 on construction |
| Stages.Fold | src/pipe/generic-pipe.ts:45-47 | the stage `reduce` from the source, every stage getting the source and the previous result (also src/pipe/order-builder-pipe.ts:69-71); characterized by `TraceDeterminesFold` and `TraceOf` |
| Stages.TraceDeterminesFold | src/pipe/generic-pipe.ts:45-47 | given a trace in which each stage gets the same original and the previous result, every stage runs and the fold ends at the trace's last value |
| Stages.TraceOf | src/pipe/generic-pipe.ts:45-47 | every fold that runs has a trace starting at the initial value and ending at the fold's result |
| Stages.FoldAppend | src/pipe/generic-pipe.ts:25-28 | a concatenated stage list runs iff its first part runs and the second runs from that result; its fold is the second part folded over the first part's result |
| Stages.AbstractBasePipeBuilder.constructor | src/pipe/generic-pipe.ts:19 | the stage list starts empty |
| Stages.AbstractBasePipeBuilder.Pipe | src/pipe/generic-pipe.ts:25-28 | appends the stages after the registered ones in argument order and returns the same builder |
| Stages.AbstractBasePipeBuilder.ExecutePipe | src/pipe/generic-pipe.ts:40-48 | with no stages returns the source; otherwise returns the last value of the trace from the source |
| GenericPipe.SeasonalOfferStage | src/pipe/generic-pipe.ts:149-152 | needs the original products; gives the original products at 80%, same count, and takes the other fields from current |
| GenericPipe.PromoStage | src/pipe/generic-pipe.ts:154-164 | needs the current products; appends one Seat to them and takes the other fields from current |
| GenericPipe.SampleStages | src/pipe/generic-pipe.ts:147-165 | the two sample stages in registration order: the seasonal offer, then the promo |
| GenericPipe.SampleStagesResult | src/pipe/generic-pipe.ts:146-166 | on an order with products, the two sample stages run and give the discounted products then an undiscounted Seat, other fields unchanged |
| GenericPipe.SeasonalOfferIgnoresEarlierStages | src/pipe/generic-pipe.ts:149-152 | whatever earlier stages did, after the seasonal stage the products are the original products discounted |
| GenericPipe.OrderBuilderImpl.constructor | src/pipe/generic-pipe.ts:67-71 | a new builder has no field set and an empty stage list |
| GenericPipe.OrderBuilderImpl.WithProducts | src/pipe/generic-pipe.ts:73-76 | sets only products, keeps the stages, returns the same builder |
| GenericPipe.OrderBuilderImpl.WithCoupons | src/pipe/generic-pipe.ts:78-81 | sets only coupons, keeps the stages, returns the same builder |
| GenericPipe.OrderBuilderImpl.WithUsername | src/pipe/generic-pipe.ts:83-86 | sets only username, keeps the stages, returns the same builder |
| GenericPipe.OrderBuilderImpl.WithDeliveryAddress | src/pipe/generic-pipe.ts:88-91 | sets only the address, keeps the stages, returns the same builder |
| GenericPipe.OrderBuilderImpl.Pipe | src/pipe/generic-pipe.ts:25-28 | appends the stages in order, keeps the fields, returns the same builder |
| GenericPipe.OrderBuilderImpl.Build | src/pipe/generic-pipe.ts:93-102 | with no stages returns the current fields; otherwise the trace's last value, every stage getting the base order as original |
| GenericPipe.BuildTwice | src/pipe/generic-pipe.ts:93-102 | two consecutive builds give equal orders |
| GenericPipe.Script | src/pipe/generic-pipe.ts:140-166 | the script's order has the products Bumper 1.6 × 10, LED Light 160 × 1, Fog Light 0.4 × 100, Seat 0 × 1 and the set coupons, username and address |
| OrderBuilderPipe.OrderBuilderImpl.constructor | src/pipe/order-builder-pipe.ts:25-30 | a new builder has no field set and an empty stage list |
| OrderBuilderPipe.OrderBuilderImpl.WithProducts | src/pipe/order-builder-pipe.ts:32-35 | sets only products, keeps the stages, returns the same builder |
| OrderBuilderPipe.OrderBuilderImpl.WithCoupons | src/pipe/order-builder-pipe.ts:37-40 | sets only coupons, keeps the stages, returns the same builder |
| OrderBuilderPipe.OrderBuilderImpl.WithUsername | src/pipe/order-builder-pipe.ts:42-45 | sets only username, keeps the stages, returns the same builder |
| OrderBuilderPipe.OrderBuilderImpl.WithDeliveryAddress | src/pipe/order-builder-pipe.ts:47-50 | sets only the address, keeps the stages, returns the same builder |
| OrderBuilderPipe.OrderBuilderImpl.Pipe | src/pipe/order-builder-pipe.ts:52-55 | appends the stages in argument order, keeps the fields, returns the same builder |
| OrderBuilderPipe.OrderBuilderImpl.Build | src/pipe/order-builder-pipe.ts:57-72 | with no stages returns exactly the current fields; otherwise the last value of the trace from the base order, every stage getting the base order as original |
| OrderBuilderPipe.Script | src/pipe/order-builder-pipe.ts:110-136 | seasonal then promo on the sample data: only prices change, Seat last and undiscounted |
| PlainBuilder.OrderBuilderImpl.constructor | src/builder/order-builder.ts:19-23 | a new builder has no field set |
| PlainBuilder.OrderBuilderImpl.WithProducts | src/builder/order-builder.ts:25-28 | overwrites products only and returns the same builder |
| PlainBuilder.OrderBuilderImpl.WithCoupons | src/builder/order-builder.ts:30-33 | overwrites coupons only and returns the same builder |
| PlainBuilder.OrderBuilderImpl.WithUsername | src/builder/order-builder.ts:35-38 | overwrites username only and returns the same builder |
| PlainBuilder.OrderBuilderImpl.WithDeliveryAddress | src/builder/order-builder.ts:40-43 | overwrites the address only and returns the same builder |
| PlainBuilder.OrderBuilderImpl.Build | src/builder/order-builder.ts:45-52 | a new order whose four fields are exactly the builder's, unset ones included, total not computed; the builder is unchanged |
| PlainBuilder.LastWriteWins | src/builder/order-builder.ts:35-38 | username 'a' then 'b' builds an order with username 'b' and every other field unset, without error |
| PlainBuilder.Script | src/builder/order-builder.ts:90-99 | rebuilding after changing the username gives an order that differs from the first only in username |
| SeasonBuilder.ProductsAtBuild | src/builder/order-builder-season.ts:68-73 | the built list has length products + promo; line i keeps name and quantity, with price × 0.8 exactly when the offer is on; the promo items come last, uncut |
| SeasonBuilder.ProductsAtBuildCost | src/builder/order-builder-season.ts:68-73 | the built list costs the base cost (80% of it under the offer) plus the promo items' cost |
| SeasonBuilder.NamedStagesMatchPipeline | src/builder/order-builder-season.ts:67-81 | the seasonal and promo pipeline stages in order run and give the whole order the offer and the promo build: cut products then the Seat, other fields unchanged |
| SeasonBuilder.BuildMatchesPipeline | src/builder/order-builder-season.ts:67-81 | with the offer on and the promo set, `Build` returns the same order as the two sample pipeline stages folded over the builder's fields |
| SeasonBuilder.OrderBuilderImpl.constructor | src/builder/order-builder-season.ts:22-29 | a new builder has no field set, the offer unset (off) and no promo list |
| SeasonBuilder.OrderBuilderImpl.WithProducts | src/builder/order-builder-season.ts:31-34 | overwrites products only and returns the same builder |
| SeasonBuilder.OrderBuilderImpl.WithCoupons | src/builder/order-builder-season.ts:36-39 | overwrites coupons only and returns the same builder |
| SeasonBuilder.OrderBuilderImpl.WithUsername | src/builder/order-builder-season.ts:41-44 | overwrites username only and returns the same builder |
| SeasonBuilder.OrderBuilderImpl.WithDeliveryAddress | src/builder/order-builder-season.ts:46-49 | overwrites the address only and returns the same builder |
| SeasonBuilder.OrderBuilderImpl.WithSeasonalOffer | src/builder/order-builder-season.ts:51-54 | turns the offer on whatever its state (idempotent), changes nothing else |
| SeasonBuilder.OrderBuilderImpl.WithPromo | src/builder/order-builder-season.ts:56-65 | replaces the promo list by exactly one Seat (repeat calls still leave one), changes nothing else |
| SeasonBuilder.OrderBuilderImpl.Build | src/builder/order-builder-season.ts:67-81 | needs products and the promo list set; gives a new order with the cut-then-promo product list; coupons, username and address pass through; the builder is unchanged |
| SeasonBuilder.Script | src/builder/order-builder-season.ts:119-128 | the script's order has Bumper 1.6 × 10, LED Light 160 × 1, Fog Light 0.4 × 100, Seat 0 × 1 |

## Left out

- Floating point: prices, quantities and discounts are exact reals, so the rounding of JavaScript numbers is not modelled.
- Coupon expiry: `validTill` comes from the clock (`Date.now()`) and pricing never reads it; it is an opaque number here.
- The one-array stage call of src/pipe/generic-pipe.ts:46 and src/pipe/order-builder-pipe.ts:70: the model passes two arguments, as described above.
- Array aliasing: `build` hands the builder's own arrays to the order in the original; sequences are values here, so sharing is not modelled and no later mutation can leak between builder and order.
- Inheritance: `OrderBuilderImpl extends AbstractBasePipeBuilder` is modelled by composition (the builder owns an `AbstractBasePipeBuilder<Order>`); the abstract `build()` of the base class has no body and is not modelled; the `StageFactory` and `PipeBuilderBase` interfaces are types only.
- The pipe builders' `Build` returns the order as a value: stages return plain objects in the original, and the unset `totalCost` of the base `OrderImpl` is never read.
- Stages are pure functions: a JavaScript stage that mutates `original` or `current` in place (and so changes what later stages see as the base order) cannot be expressed; only stages that return a new value are modelled.
- A stage that throws is a stage whose precondition fails; `Build` requires (`Runs`) that every stage's precondition holds along the fold, so thrown exceptions are not modelled as values.
- Interfaces (src/interfaces.ts) are types only; they are the datatypes of module `Interfaces`.
