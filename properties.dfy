/**
 What a rebalancing transaction guarantees: which stocks get orders, the
 sign and size of each order, and the holdings that result from carrying
 the orders out at unchanged prices.

 Most lemmas are stated for `Orders(p, price, total)` with any `total`; the
 transaction `Rebalance` returns is the instance where `total` is the
 portfolio value (`RebalanceOrders`), so each of them holds of it.
 */
module RebalancingProperties {
  import opened Stocks
  import opened Sums
  import opened Rebalancing

  /** Every held position is already worth its target value. */
  predicate Balanced(p: Portfolio, price: PriceOracle, total: real) {
    forall s :: s in p.stocks ==> CurrentValue(p, price, s) == TargetValue(p, total, s)
  }

  /** The target value of each held stock in a portfolio worth `total`. */
  function TargetValues(p: Portfolio, total: real): (targets: map<Stock, real>)
    ensures targets.Keys == p.stocks.Keys
  {
    map s | s in p.stocks :: TargetValue(p, total, s)
  }

  /** The holdings after selling and buying the quantities of `t`. */
  function Apply(stocks: Holdings, t: Transaction): (after: Holdings)
    ensures after.Keys == stocks.Keys
  {
    map s | s in stocks :: stocks[s] - Quantity(t.sell, s) + Quantity(t.buy, s)
  }

  /**
   A held stock gets a sell order exactly when it is worth more than its
   target, a buy order exactly when it is worth less, and the order's shares
   are worth exactly the difference. A stock that is not held gets no order,
   whatever its target weight.
   */
  lemma OrderClassification(p: Portfolio, price: PriceOracle, total: real, s: Stock)
    requires PricedHoldings(p.stocks, price)
    ensures var t := Orders(p, price, total);
      && (s !in p.stocks ==> s !in t.sell && s !in t.buy)
      && (s in p.stocks ==>
            && (s in t.sell <==> CurrentValue(p, price, s) > TargetValue(p, total, s))
            && (s in t.buy <==> CurrentValue(p, price, s) < TargetValue(p, total, s))
            && (s in t.sell ==> t.sell[s] * price(s) == CurrentValue(p, price, s) - TargetValue(p, total, s))
            && (s in t.buy ==> t.buy[s] * price(s) == TargetValue(p, total, s) - CurrentValue(p, price, s)))
  {
    var t := Orders(p, price, total);
    if s in p.stocks {
      var d := ValueDiff(p, price, total, s);
      if s in t.sell {
        assert t.sell[s] == d / price(s);
      }
      if s in t.buy {
        assert t.buy[s] == -(d / price(s));
      }
    }
  }

  /**
   No stock is both sold and bought, only held stocks get orders, and every
   order is for a positive number of shares.
   */
  lemma OrdersWellFormed(p: Portfolio, price: PriceOracle, total: real)
    requires PricedHoldings(p.stocks, price)
    ensures var t := Orders(p, price, total);
      && t.sell.Keys !! t.buy.Keys
      && t.sell.Keys + t.buy.Keys <= p.stocks.Keys
      && (forall s :: s in t.sell ==> t.sell[s] > 0.0)
      && (forall s :: s in t.buy ==> t.buy[s] > 0.0)
  {
    var t := Orders(p, price, total);
    forall s | s in t.buy ensures t.buy[s] > 0.0 {
      var d := ValueDiff(p, price, total, s);
      assert -(d / price(s)) == (-d) / price(s);
    }
  }

  /** Both maps are empty exactly when every held position is at its target value. */
  lemma NoOrdersIffBalanced(p: Portfolio, price: PriceOracle, total: real)
    requires PricedHoldings(p.stocks, price)
    ensures Orders(p, price, total) == Transaction(map[], map[]) <==> Balanced(p, price, total)
  {
    var t := Orders(p, price, total);
    if Balanced(p, price, total) {
      forall s | s in p.stocks ensures s !in t.sell && s !in t.buy {
        OrderClassification(p, price, total, s);
      }
      assert t.sell == map[] && t.buy == map[];
    }
    if t == Transaction(map[], map[]) {
      forall s | s in p.stocks ensures CurrentValue(p, price, s) == TargetValue(p, total, s) {
        OrderClassification(p, price, total, s);
      }
    }
  }

  /**
   A held stock whose target weight is 0, or which has no target weight at
   all, is sold in full; with no shares it gets no order.
   */
  lemma UnallocatedSoldInFull(p: Portfolio, price: PriceOracle, total: real, s: Stock)
    requires PricedHoldings(p.stocks, price)
    requires s in p.stocks && (s !in p.allocatedStocks || p.allocatedStocks[s] == 0.0)
    ensures var t := Orders(p, price, total);
      && (p.stocks[s] > 0.0 ==> s in t.sell && t.sell[s] == p.stocks[s] && s !in t.buy)
      && (p.stocks[s] == 0.0 ==> s !in t.sell && s !in t.buy)
  {
    var shares, unit := p.stocks[s], price(s);
    assert Weight(p, s) == 0.0;
    assert ValueDiff(p, price, total, s) == shares * unit;
    if shares > 0.0 {
      assert (shares * unit) / unit == shares;
    }
  }

  /**
   The shares sold minus the shares bought of a held stock are worth exactly
   its current value minus its target value.
   */
  lemma NetOrderValue(p: Portfolio, price: PriceOracle, total: real, s: Stock)
    requires PricedHoldings(p.stocks, price) && s in p.stocks
    ensures var t := Orders(p, price, total);
      (Quantity(t.sell, s) - Quantity(t.buy, s)) * price(s)
        == p.stocks[s] * price(s) - TargetValue(p, total, s)
  {
    var t := Orders(p, price, total);
    var d := ValueDiff(p, price, total, s);
    if d != 0.0 {
      assert Quantity(t.sell, s) - Quantity(t.buy, s) == d / price(s);
    } else {
      assert Quantity(t.sell, s) - Quantity(t.buy, s) == 0.0;
    }
  }

  /**
   Trading shares whose net value is the surplus of a position over `target`
   leaves that position worth `target`.
   */
  lemma SettlePosition(stocks: Holdings, t: Transaction, unit: real, target: real, s: Stock)
    requires s in stocks
    requires (Quantity(t.sell, s) - Quantity(t.buy, s)) * unit == stocks[s] * unit - target
    ensures Apply(stocks, t)[s] * unit == target
  {
    var net := Quantity(t.sell, s) - Quantity(t.buy, s);
    assert Apply(stocks, t)[s] == stocks[s] - net;
  }

  /**
   Carrying out the orders at unchanged prices brings every held position to
   exactly its target value.
   */
  lemma ApplyReachesTarget(p: Portfolio, price: PriceOracle, total: real, s: Stock)
    requires PricedHoldings(p.stocks, price) && s in p.stocks
    ensures Apply(p.stocks, Orders(p, price, total))[s] * price(s) == TargetValue(p, total, s)
  {
    NetOrderValue(p, price, total, s);
    SettlePosition(p.stocks, Orders(p, price, total), price(s), TargetValue(p, total, s), s);
  }

  /**
   Holdings of the stocks of `p` whose every position is worth its target
   value form a balanced portfolio with the allocation of `p`.
   */
  lemma BalancedAtTargets(p: Portfolio, price: PriceOracle, total: real, after: Holdings)
    requires after.Keys == p.stocks.Keys
    requires forall s :: s in p.stocks ==> after[s] * price(s) == TargetValue(p, total, s)
    ensures Balanced(Portfolio(after, p.allocatedStocks), price, total)
  {
    var q := Portfolio(after, p.allocatedStocks);
    forall s | s in q.stocks ensures CurrentValue(q, price, s) == TargetValue(q, total, s) {
      SameAllocationSameTarget(p, q, total, s);
    }
  }

  /** After the orders are carried out, every held position is at its target value. */
  lemma ApplyReachesTargets(p: Portfolio, price: PriceOracle, total: real)
    requires PricedHoldings(p.stocks, price)
    ensures Balanced(Portfolio(Apply(p.stocks, Orders(p, price, total)), p.allocatedStocks), price, total)
  {
    forall s | s in p.stocks
      ensures Apply(p.stocks, Orders(p, price, total))[s] * price(s) == TargetValue(p, total, s)
    {
      ApplyReachesTarget(p, price, total, s);
    }
    BalancedAtTargets(p, price, total, Apply(p.stocks, Orders(p, price, total)));
  }

  /** Target values depend on the allocation only. */
  lemma SameAllocationSameTarget(p: Portfolio, q: Portfolio, total: real, s: Stock)
    requires p.allocatedStocks == q.allocatedStocks
    ensures TargetValue(p, total, s) == TargetValue(q, total, s)
  {
    assert Weight(p, s) == Weight(q, s);
  }

  /** Portfolios holding the same stocks towards the same allocation have the same target values. */
  lemma SameTargetValues(p: Portfolio, q: Portfolio, total: real)
    requires p.stocks.Keys == q.stocks.Keys && p.allocatedStocks == q.allocatedStocks
    ensures TargetValues(p, total) == TargetValues(q, total)
  {
    forall s | s in p.stocks ensures TargetValues(p, total)[s] == TargetValues(q, total)[s] {
      SameAllocationSameTarget(p, q, total, s);
    }
  }

  /** A balanced portfolio is worth the sum of its target values. */
  lemma BalancedWorthTargets(q: Portfolio, price: PriceOracle, total: real)
    requires Balanced(q, price, total)
    ensures HoldingsValue(q.stocks, price) == Sum(TargetValues(q, total))
  {
    forall s | s in q.stocks ensures PositionValues(q.stocks, price)[s] == TargetValues(q, total)[s] {
      assert CurrentValue(q, price, s) == TargetValue(q, total, s);
    }
    assert PositionValues(q.stocks, price) == TargetValues(q, total);
  }

  /**
   When the target values of the held stocks add up to the portfolio value
   (the held weights add up to 1, or the portfolio is worth nothing),
   carrying out the orders leaves the portfolio value unchanged, and
   rebalancing the resulting holdings asks for no further orders.
   */
  lemma RebalanceIdempotent(p: Portfolio, price: PriceOracle)
    requires PricedHoldings(p.stocks, price)
    requires Sum(TargetValues(p, HoldingsValue(p.stocks, price))) == HoldingsValue(p.stocks, price)
    ensures var p' := Portfolio(Apply(p.stocks, RebalanceOrders(p, price)), p.allocatedStocks);
      && PricedHoldings(p'.stocks, price)
      && HoldingsValue(p'.stocks, price) == HoldingsValue(p.stocks, price)
      && RebalanceOrders(p', price) == Transaction(map[], map[])
  {
    var total := HoldingsValue(p.stocks, price);
    var p' := Portfolio(Apply(p.stocks, Orders(p, price, total)), p.allocatedStocks);
    ApplyReachesTargets(p, price, total);
    SameTargetValues(p, p', total);
    BalancedWorthTargets(p', price, total);
    NoOrdersIffBalanced(p', price, total);
  }

  /**
   With a non-negative weight and portfolio value, a sell order never sells
   more shares than are held.
   */
  lemma SellWithinHolding(p: Portfolio, price: PriceOracle, total: real, s: Stock)
    requires PricedHoldings(p.stocks, price) && total >= 0.0 && Weight(p, s) >= 0.0
    ensures var t := Orders(p, price, total);
      s in t.sell ==> t.sell[s] <= p.stocks[s]
  {
    var t := Orders(p, price, total);
    if s in t.sell {
      OrderClassification(p, price, total, s);
      NonNegativeProduct(Weight(p, s), total);
      assert t.sell[s] * price(s) <= p.stocks[s] * price(s);
    }
  }

  /** With no negative holding, a buy order is worth at most the target value. */
  lemma BuyWithinTarget(p: Portfolio, price: PriceOracle, total: real, s: Stock)
    requires PricedHoldings(p.stocks, price)
    requires s in p.stocks ==> p.stocks[s] >= 0.0
    ensures var t := Orders(p, price, total);
      s in t.buy ==> t.buy[s] * price(s) <= TargetValue(p, total, s)
  {
    var t := Orders(p, price, total);
    if s in t.buy {
      OrderClassification(p, price, total, s);
      NonNegativeProduct(p.stocks[s], price(s));
    }
  }

  /**
   With no negative holdings or weights and a non-negative portfolio value,
   no order sells more shares than are held, and no buy order is worth more
   than the target value.
   */
  lemma OrdersWithinBounds(p: Portfolio, price: PriceOracle, total: real)
    requires PricedHoldings(p.stocks, price) && total >= 0.0
    requires forall s :: s in p.stocks ==> p.stocks[s] >= 0.0
    requires forall s :: s in p.allocatedStocks ==> p.allocatedStocks[s] >= 0.0
    ensures var t := Orders(p, price, total);
      && (forall s :: s in t.sell ==> t.sell[s] <= p.stocks[s])
      && (forall s :: s in t.buy ==> t.buy[s] * price(s) <= TargetValue(p, total, s))
  {
    var t := Orders(p, price, total);
    forall s
      ensures s in t.sell ==> t.sell[s] <= p.stocks[s]
      ensures s in t.buy ==> t.buy[s] * price(s) <= TargetValue(p, total, s)
    {
      SellWithinHolding(p, price, total, s);
      BuyWithinTarget(p, price, total, s);
    }
  }

  /** With no negative holdings or weights, a rebalance never sells more shares than are held. */
  lemma RebalanceSellsOnlyHeldShares(p: Portfolio, price: PriceOracle)
    requires PricedHoldings(p.stocks, price)
    requires forall s :: s in p.stocks ==> p.stocks[s] >= 0.0
    requires forall s :: s in p.allocatedStocks ==> p.allocatedStocks[s] >= 0.0
    ensures var t := RebalanceOrders(p, price);
      forall s :: s in t.sell ==> t.sell[s] <= p.stocks[s]
  {
    HoldingsValueNonNegative(p.stocks, price);
    OrdersWithinBounds(p, price, HoldingsValue(p.stocks, price));
  }
}
