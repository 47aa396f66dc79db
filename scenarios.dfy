/**
 The rebalancing scenarios of main_test.go, at the stubbed
 prices of `Stocks.CurrentPrice`. Each expected quantity is compared the way
 the tests compare them: the four lookups (a missing entry reads as 0) must
 each be within 0.001 of the expected one. Beyond that, each lemma also
 states exactly which stocks get a sell and a buy order.
 */
module RebalanceScenarios {
  import opened Stocks
  import opened Sums
  import opened Rebalancing
  import opened RebalancingProperties

  /** `|expected - actual| <= delta` */
  predicate InDelta(expected: real, actual: real, delta: real) {
    -delta <= expected - actual <= delta
  }

  /** Every quantity the test inspects is within `delta` of the wanted one. */
  predicate Matches(got: Transaction, want: Transaction, delta: real) {
    && InDelta(Quantity(want.sell, AAPL), Quantity(got.sell, AAPL), delta)
    && InDelta(Quantity(want.sell, META), Quantity(got.sell, META), delta)
    && InDelta(Quantity(want.buy, AAPL), Quantity(got.buy, AAPL), delta)
    && InDelta(Quantity(want.buy, META), Quantity(got.buy, META), delta)
  }

  /** Exactly the two stubbed stocks have a positive price. */
  lemma PricedAtCurrentPrice(stocks: Holdings)
    ensures PricedHoldings(stocks, CurrentPrice) <==> stocks.Keys <= {AAPL, META}
  {
    if PricedHoldings(stocks, CurrentPrice) {
      forall s | s in stocks ensures s in {AAPL, META} {
        assert CurrentPrice(s) > 0.0;
      }
    }
  }

  /** The value of a portfolio holding `a` shares of AAPL and `m` shares of META. */
  lemma TwoStockValue(a: real, m: real, price: PriceOracle)
    ensures HoldingsValue(map[AAPL := a, META := m], price) == a * price(AAPL) + m * price(META)
  {
    var stocks := map[AAPL := a, META := m];
    assert AAPL[0] != META[0];
    HoldingsValueRemove(stocks, price, AAPL);
    assert stocks - {AAPL} == map[META := m];
    HoldingsValueRemove(map[META := m], price, META);
    assert map[META := m] - {META} == map[];
    assert PositionValues(map[], price) == map[];
  }

  /**
   The orders for `a` AAPL and `m` META shares are those for the portfolio
   value `a * 201.28 + m * 670.05`; each stock's order is worth the gap between
   its current and its target value.
   */
  lemma TwoStockOrders(a: real, m: real, wa: real, wm: real)
    ensures var p := Portfolio(map[AAPL := a, META := m], map[AAPL := wa, META := wm]);
      && PricedHoldings(p.stocks, CurrentPrice)
      && HoldingsValue(p.stocks, CurrentPrice) == a * 201.28 + m * 670.05
      && (forall s :: s in p.stocks <==> s == AAPL || s == META)
      && CurrentValue(p, CurrentPrice, AAPL) == a * 201.28
      && CurrentValue(p, CurrentPrice, META) == m * 670.05
      && Weight(p, AAPL) == wa && Weight(p, META) == wm
  {
    var p := Portfolio(map[AAPL := a, META := m], map[AAPL := wa, META := wm]);
    assert AAPL[0] != META[0];
    PricedAtCurrentPrice(p.stocks);
    TwoStockValue(a, m, CurrentPrice);
  }

  /** "Sell META buy AAPL": 20 AAPL and 6 META towards 60% AAPL, 40% META. */
  lemma SellMetaBuyAapl()
    ensures var t := RebalanceOrders(
              Portfolio(map[AAPL := 20.0, META := 6.0], map[AAPL := 0.6, META := 0.4]), CurrentPrice);
      && t.sell.Keys == {META} && t.buy.Keys == {AAPL}
      && Matches(t, Transaction(map[META := 1.1968], map[AAPL := 3.9837]), 0.001)
  {
    var p := Portfolio(map[AAPL := 20.0, META := 6.0], map[AAPL := 0.6, META := 0.4]);
    TwoStockOrders(20.0, 6.0, 0.6, 0.4);
    var total := 8045.9;
    OrderClassification(p, CurrentPrice, total, AAPL);
    OrderClassification(p, CurrentPrice, total, META);
    OrdersWellFormed(p, CurrentPrice, total);
  }

  /**
   "Portfolio is balanced": the holdings after the first scenario's orders,
   rounded to four decimals. In exact arithmetic the rounding leaves tiny
   orders (a sell of META and a buy of AAPL), each within 0.001 of none.
   */
  lemma BalancedPortfolio()
    ensures var t := RebalanceOrders(
              Portfolio(map[AAPL := 23.9837, META := 4.8032], map[AAPL := 0.6, META := 0.4]), CurrentPrice);
      && t.sell.Keys == {META} && t.buy.Keys == {AAPL}
      && Matches(t, Transaction(map[], map[]), 0.001)
  {
    var p := Portfolio(map[AAPL := 23.9837, META := 4.8032], map[AAPL := 0.6, META := 0.4]);
    TwoStockOrders(23.9837, 4.8032, 0.6, 0.4);
    var total := 8045.823296;
    OrderClassification(p, CurrentPrice, total, AAPL);
    OrderClassification(p, CurrentPrice, total, META);
    OrdersWellFormed(p, CurrentPrice, total);
  }

  /** "Sell all AAPL, buy META": a weight of 0 for AAPL sells all 20 shares. */
  lemma SellAllAaplBuyMeta()
    ensures var t := RebalanceOrders(
              Portfolio(map[AAPL := 20.0, META := 6.0], map[AAPL := 0.0, META := 1.0]), CurrentPrice);
      && t.sell == map[AAPL := 20.0] && t.buy.Keys == {META}
      && Matches(t, Transaction(map[AAPL := 20.0], map[META := 6.0079]), 0.001)
  {
    var p := Portfolio(map[AAPL := 20.0, META := 6.0], map[AAPL := 0.0, META := 1.0]);
    TwoStockOrders(20.0, 6.0, 0.0, 1.0);
    var total := 8045.9;
    OrderClassification(p, CurrentPrice, total, AAPL);
    OrderClassification(p, CurrentPrice, total, META);
    OrdersWellFormed(p, CurrentPrice, total);
  }

  /** "Sell all META, buy AAPL": a weight of 0 for META sells all 6 shares. */
  lemma SellAllMetaBuyAapl()
    ensures var t := RebalanceOrders(
              Portfolio(map[AAPL := 20.0, META := 6.0], map[AAPL := 1.0, META := 0.0]), CurrentPrice);
      && t.sell == map[META := 6.0] && t.buy.Keys == {AAPL}
      && Matches(t, Transaction(map[META := 6.0], map[AAPL := 19.9737]), 0.001)
  {
    var p := Portfolio(map[AAPL := 20.0, META := 6.0], map[AAPL := 1.0, META := 0.0]);
    TwoStockOrders(20.0, 6.0, 1.0, 0.0);
    var total := 8045.9;
    OrderClassification(p, CurrentPrice, total, AAPL);
    OrderClassification(p, CurrentPrice, total, META);
    OrdersWellFormed(p, CurrentPrice, total);
  }
}
