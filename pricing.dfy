/** The pricing rule shared by every `OrderImpl.computeTotalCost`: a sum of
    price times quantity over the products, starting at 0, followed by one
    multiplication by (1 - discount) per coupon, in coupon order. Both passes
    are left folds in the original (`reduce` with an initial value); they are
    written here as accumulator recursions and related to the closed forms
    Sum and Factor by lemmas. */
module Pricing {
  import opened Interfaces

  /** The cost of one product line. */
  function LineCost(p: ProductInOrder): real {
    p.price * p.quantity
  }

  /** The first `reduce`: adds each line's cost to the accumulator, first line first. */
  function SumFrom(acc: real, ps: seq<ProductInOrder>): real
    decreases |ps|
  {
    if ps == [] then acc else SumFrom(acc + LineCost(ps[0]), ps[1..])
  }

  /** Reference definition of the base cost: the sum of all line costs. */
  function Sum(ps: seq<ProductInOrder>): real
    decreases |ps|
  {
    if ps == [] then 0.0 else LineCost(ps[0]) + Sum(ps[1..])
  }

  lemma {:induction false} SumFromIsSum(acc: real, ps: seq<ProductInOrder>)
    ensures SumFrom(acc, ps) == acc + Sum(ps)
    decreases |ps|
  {
    if ps != [] {
      SumFromIsSum(acc + LineCost(ps[0]), ps[1..]);
    }
  }

  /** The base cost: the first fold started at 0. */
  function BaseCost(ps: seq<ProductInOrder>): (r: real)
    ensures r == Sum(ps)
  {
    SumFromIsSum(0.0, ps);
    SumFrom(0.0, ps)
  }

  /** One step of the second `reduce`: the running total after one coupon. */
  function Discounted(total: real, c: Coupon): real {
    total * (1.0 - c.discount)
  }

  /** The second `reduce`: multiplies the running total by (1 - discount) for
      each coupon, first coupon first. */
  function ApplyCoupons(total: real, cs: seq<Coupon>): real
    decreases |cs|
  {
    if cs == [] then total else ApplyCoupons(Discounted(total, cs[0]), cs[1..])
  }

  /** Reference definition of the combined discount: the product of (1 - discount). */
  function Factor(cs: seq<Coupon>): real
    decreases |cs|
  {
    if cs == [] then 1.0 else (1.0 - cs[0].discount) * Factor(cs[1..])
  }

  lemma {:induction false} ApplyCouponsIsProduct(total: real, cs: seq<Coupon>)
    ensures ApplyCoupons(total, cs) == total * Factor(cs)
    decreases |cs|
  {
    if cs != [] {
      var d := cs[0].discount;
      ApplyCouponsIsProduct(Discounted(total, cs[0]), cs[1..]);
      calc {
        ApplyCoupons(total, cs);
        ApplyCoupons(Discounted(total, cs[0]), cs[1..]);
        Discounted(total, cs[0]) * Factor(cs[1..]);
        total * (1.0 - d) * Factor(cs[1..]);
        total * ((1.0 - d) * Factor(cs[1..]));
        total * Factor(cs);
      }
    }
  }

  /** computeTotalCost: the coupon fold started at the base cost. */
  function TotalCost(ps: seq<ProductInOrder>, cs: seq<Coupon>): (r: real)
    ensures r == Sum(ps) * Factor(cs)
    ensures cs == [] ==> r == Sum(ps)
  {
    ApplyCouponsIsProduct(BaseCost(ps), cs);
    ApplyCoupons(BaseCost(ps), cs)
  }

  // ---------------------------------------------------------------------------
  // The base cost

  lemma {:induction false} SumAppend(ps: seq<ProductInOrder>, qs: seq<ProductInOrder>)
    ensures Sum(ps + qs) == Sum(ps) + Sum(qs)
    decreases |ps|
  {
    if ps == [] {
      assert ps + qs == qs;
    } else {
      assert (ps + qs)[1..] == ps[1..] + qs;
      SumAppend(ps[1..], qs);
    }
  }

  /** An empty order costs nothing, and appending a line adds exactly its cost. */
  lemma BaseCostAppend(ps: seq<ProductInOrder>, p: ProductInOrder)
    ensures BaseCost([]) == 0.0
    ensures BaseCost(ps + [p]) == BaseCost(ps) + p.price * p.quantity
  {
    SumAppend(ps, [p]);
  }

  /** Non-negative prices and quantities give a non-negative base cost. */
  lemma {:induction false} BaseCostNonNegative(ps: seq<ProductInOrder>)
    requires forall i :: 0 <= i < |ps| ==> ps[i].price >= 0.0 && ps[i].quantity >= 0.0
    ensures BaseCost(ps) >= 0.0
    decreases |ps|
  {
    if ps != [] {
      BaseCostNonNegative(ps[1..]);
      assert LineCost(ps[0]) >= 0.0;
    }
  }

  lemma SumRemoveAt(ps: seq<ProductInOrder>, j: nat)
    requires j < |ps|
    ensures Sum(ps) == LineCost(ps[j]) + Sum(ps[..j] + ps[j + 1..])
  {
    assert ps == ps[..j] + ([ps[j]] + ps[j + 1..]);
    SumAppend(ps[..j], [ps[j]] + ps[j + 1..]);
    SumAppend(ps[..j], ps[j + 1..]);
  }

  /** The base cost does not depend on the order of the product lines. */
  lemma {:induction false} BaseCostPermutation(ps: seq<ProductInOrder>, qs: seq<ProductInOrder>)
    requires multiset(ps) == multiset(qs)
    ensures BaseCost(ps) == BaseCost(qs)
    decreases |ps|
  {
    if ps == [] {
      assert |qs| == |multiset(qs)| == 0;
    } else {
      assert ps[0] in multiset(qs);
      var j :| 0 <= j < |qs| && qs[j] == ps[0];
      var rest := qs[..j] + qs[j + 1..];
      assert qs == qs[..j] + [qs[j]] + qs[j + 1..];
      assert ps == [ps[0]] + ps[1..];
      assert multiset(qs) == multiset(qs[..j]) + multiset([qs[j]]) + multiset(qs[j + 1..]);
      assert multiset(ps) == multiset([ps[0]]) + multiset(ps[1..]);
      assert multiset(rest) == multiset(qs[..j]) + multiset(qs[j + 1..]);
      assert multiset(ps[1..]) == multiset(ps) - multiset{ps[0]};
      assert multiset(rest) == multiset(qs) - multiset{qs[j]};
      BaseCostPermutation(ps[1..], rest);
      SumRemoveAt(qs, j);
    }
  }

  // ---------------------------------------------------------------------------
  // The coupons

  /** Coupons apply in list order: a list split in two is the second part
      applied to the result of the first. */
  lemma {:induction false} ApplyCouponsAppend(total: real, cs: seq<Coupon>, ds: seq<Coupon>)
    ensures ApplyCoupons(total, cs + ds) == ApplyCoupons(ApplyCoupons(total, cs), ds)
    decreases |cs|
  {
    if cs == [] {
      assert cs + ds == ds;
    } else {
      assert (cs + ds)[0] == cs[0] && (cs + ds)[1..] == cs[1..] + ds;
      ApplyCouponsAppend(Discounted(total, cs[0]), cs[1..], ds);
    }
  }

  /** Discounts compound: two 50% coupons leave a quarter, not nothing. */
  lemma TwoHalfCouponsLeaveAQuarter(total: real, c1: Coupon, c2: Coupon)
    requires c1.discount == 0.5 && c2.discount == 0.5
    ensures ApplyCoupons(total, [c1, c2]) == total / 4.0
  {
    calc {
      ApplyCoupons(total, [c1, c2]);
      ApplyCoupons(Discounted(total, c1), [c1, c2][1..]);
      { assert [c1, c2][1..] == [c2]; }
      ApplyCoupons(total * 0.5, [c2]);
      ApplyCoupons(Discounted(total * 0.5, c2), [c2][1..]);
      { assert [c2][1..] == []; }
      total * 0.5 * 0.5;
    }
  }

  /** A coupon whose discount is 0 can be dropped without changing the total. */
  lemma {:induction false} ZeroDiscountIsNeutral(total: real, cs: seq<Coupon>, i: nat)
    requires i < |cs| && cs[i].discount == 0.0
    ensures ApplyCoupons(total, cs[..i] + cs[i + 1..]) == ApplyCoupons(total, cs)
  {
    assert cs == cs[..i] + ([cs[i]] + cs[i + 1..]);
    ApplyCouponsAppend(total, cs[..i], [cs[i]] + cs[i + 1..]);
    ApplyCouponsAppend(total, cs[..i], cs[i + 1..]);
    assert ([cs[i]] + cs[i + 1..])[1..] == cs[i + 1..];
  }

  /** A coupon whose discount is 1, anywhere in the list, makes the total 0. */
  lemma {:induction false} FullDiscountZeroes(total: real, cs: seq<Coupon>, i: nat)
    requires i < |cs| && cs[i].discount == 1.0
    ensures ApplyCoupons(total, cs) == 0.0
  {
    ApplyCouponsIsProduct(total, cs);
    FactorHasZero(cs, i);
  }

  lemma {:induction false} FactorHasZero(cs: seq<Coupon>, i: nat)
    requires i < |cs| && cs[i].discount == 1.0
    ensures Factor(cs) == 0.0
    decreases |cs|
  {
    if i > 0 {
      FactorHasZero(cs[1..], i - 1);
    }
  }

  /** With discounts in [0, 1] the combined factor is in [0, 1]. */
  lemma {:induction false} FactorBounds(cs: seq<Coupon>)
    requires forall i :: 0 <= i < |cs| ==> 0.0 <= cs[i].discount <= 1.0
    ensures 0.0 <= Factor(cs) <= 1.0
    decreases |cs|
  {
    if cs != [] {
      FactorBounds(cs[1..]);
      var a, b := 1.0 - cs[0].discount, Factor(cs[1..]);
      assert 0.0 <= a * b <= a * 1.0 by {
        assert a * (1.0 - b) >= 0.0;
      }
    }
  }

  /** With valid prices, quantities and discounts the total lies between 0 and
      the base cost. */
  lemma TotalCostBounds(ps: seq<ProductInOrder>, cs: seq<Coupon>)
    requires forall i :: 0 <= i < |ps| ==> ps[i].price >= 0.0 && ps[i].quantity >= 0.0
    requires forall i :: 0 <= i < |cs| ==> 0.0 <= cs[i].discount <= 1.0
    ensures 0.0 <= TotalCost(ps, cs) <= BaseCost(ps)
  {
    BaseCostNonNegative(ps);
    FactorBounds(cs);
    var b, f := BaseCost(ps), Factor(cs);
    assert b * (1.0 - f) >= 0.0;
  }

  // ---------------------------------------------------------------------------
  // The seasonal offer's price cut

  /** Every product at 80% of its price, name and quantity kept, order kept. */
  function SeasonalPrices(ps: seq<ProductInOrder>): (r: seq<ProductInOrder>)
    ensures |r| == |ps|
    ensures forall i :: 0 <= i < |ps| ==>
      r[i].name == ps[i].name && r[i].quantity == ps[i].quantity && r[i].price == ps[i].price * 0.8
  {
    seq(|ps|, i requires 0 <= i < |ps| => ps[i].(price := ps[i].price * 0.8))
  }

  /** The seasonal offer cuts the base cost of the discounted lines by exactly 20%. */
  lemma {:induction false} SeasonalBaseCost(ps: seq<ProductInOrder>)
    ensures BaseCost(SeasonalPrices(ps)) == 0.8 * BaseCost(ps)
    decreases |ps|
  {
    if ps != [] {
      SeasonalBaseCost(ps[1..]);
      assert SeasonalPrices(ps)[1..] == SeasonalPrices(ps[1..]);
      var p := ps[0];
      assert LineCost(SeasonalPrices(ps)[0]) == 0.8 * LineCost(p) by {
        assert p.price * 0.8 * p.quantity == 0.8 * (p.price * p.quantity);
      }
    }
  }
}
