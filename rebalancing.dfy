/**
 Portfolio rebalancing: from the shares held per stock and a target weight
 per stock, compute how many shares of each held stock to sell or to buy so
 that every position's value becomes its weight times the portfolio value.

 Prices come from an oracle passed in as a function; `Stocks.CurrentPrice`
 is the stubbed table that main.go calls.
 */
module Rebalancing {
  import opened Stocks
  import opened Sums

  /** stock -> number of shares held (fractional shares allowed) */
  type Holdings = map<Stock, real>

  /** stock -> target fraction of the portfolio value */
  type Allocation = map<Stock, real>

  /** unit price of each stock */
  type PriceOracle = Stock -> real

  datatype Portfolio = Portfolio(stocks: Holdings, allocatedStocks: Allocation)

  /** Shares to sell and shares to buy, per stock. */
  datatype Transaction = Transaction(sell: map<Stock, real>, buy: map<Stock, real>)

  /** Every held stock has a positive unit price. */
  predicate PricedHoldings(stocks: Holdings, price: PriceOracle) {
    forall s :: s in stocks ==> price(s) > 0.0
  }

  /** The target weight of `s`; a stock without an allocation weighs 0. */
  function Weight(p: Portfolio, s: Stock): real
  {
    if s in p.allocatedStocks then p.allocatedStocks[s] else 0.0
  }

  /** The quantity recorded for `s`, or 0 when there is none. */
  function Quantity(orders: map<Stock, real>, s: Stock): real {
    if s in orders then orders[s] else 0.0
  }

  /** The value (shares times unit price) of each position. */
  function PositionValues(stocks: Holdings, price: PriceOracle): (values: map<Stock, real>)
    ensures values.Keys == stocks.Keys
  {
    map s | s in stocks :: stocks[s] * price(s)
  }

  /** The value of the whole portfolio, independent of any visiting order. */
  ghost function HoldingsValue(stocks: Holdings, price: PriceOracle): real {
    Sum(PositionValues(stocks, price))
  }

  /** Taking one position out of the holdings takes its value out of the total. */
  lemma HoldingsValueRemove(stocks: Holdings, price: PriceOracle, s: Stock)
    requires s in stocks
    ensures HoldingsValue(stocks, price)
         == stocks[s] * price(s) + HoldingsValue(stocks - {s}, price)
  {
    var values := PositionValues(stocks, price);
    var after := PositionValues(stocks - {s}, price);
    assert values - {s} == after by {
      assert (values - {s}).Keys == after.Keys;
      forall k | k in after ensures (values - {s})[k] == after[k] {
        assert (stocks - {s})[k] == stocks[k];
      }
    }
    var v := values[s];
    assert v == stocks[s] * price(s);
    assert Sum(values) == v + Sum(after) by {
      SumRemove(values, s);
    }
  }

  /** A portfolio without negative positions or prices has a non-negative value. */
  lemma HoldingsValueNonNegative(stocks: Holdings, price: PriceOracle)
    requires forall s :: s in stocks ==> stocks[s] >= 0.0 && price(s) >= 0.0
    ensures HoldingsValue(stocks, price) >= 0.0
  {
    var values := PositionValues(stocks, price);
    forall s | s in values ensures values[s] >= 0.0 {
      NonNegativeProduct(stocks[s], price(s));
    }
    SumNonNegative(values);
  }

  lemma NonNegativeProduct(x: real, y: real)
    requires x >= 0.0 && y >= 0.0
    ensures x * y >= 0.0
  {
  }

  /**
   Accumulating the position values along any listing of the held stocks
   gives the portfolio value: the order in which the stocks are visited does
   not matter.
   */
  lemma HoldingsValueInAnyOrder(stocks: Holdings, price: PriceOracle, order: seq<Stock>)
    requires Enumerates(order, stocks)
    ensures SumInOrder(PositionValues(stocks, price), order) == HoldingsValue(stocks, price)
  {
    SumInAnyOrder(PositionValues(stocks, price), order);
  }

  /** Sums shares times price over the holdings, visiting them in no fixed order. */
  method TotalValue(p: Portfolio, price: PriceOracle) returns (value: real)
    ensures value == HoldingsValue(p.stocks, price)
  {
    value := 0.0;
    var rest := p.stocks;
    while rest != map[]
      invariant value + HoldingsValue(rest, price) == HoldingsValue(p.stocks, price)
      decreases |rest|
    {
      var stock :| stock in rest;
      var positionValue := rest[stock] * price(stock);
      HoldingsValueRemove(rest, price, stock);
      value := value + positionValue;
      rest := rest - {stock};
    }
  }

  /** The value of the position in `s` before any order is carried out. */
  function CurrentValue(p: Portfolio, price: PriceOracle, s: Stock): real
    requires s in p.stocks
  {
    p.stocks[s] * price(s)
  }

  /** The value the position in `s` should have in a portfolio worth `total`. */
  function TargetValue(p: Portfolio, total: real, s: Stock): real {
    Weight(p, s) * total
  }

  /**
   Current value minus target value of the held stock `s`, for a portfolio
   worth `total`: positive when `s` is over-allocated, negative when it is
   under-allocated.
   */
  function ValueDiff(p: Portfolio, price: PriceOracle, total: real, s: Stock): real
    requires s in p.stocks
  {
    CurrentValue(p, price, s) - TargetValue(p, total, s)
  }

  /** Sell orders for the over-allocated stocks among `visited`. */
  function SellOrders(p: Portfolio, price: PriceOracle, total: real, visited: set<Stock>): map<Stock, real>
    requires visited <= p.stocks.Keys && PricedHoldings(p.stocks, price)
  {
    map s | s in visited && ValueDiff(p, price, total, s) > 0.0
      :: ValueDiff(p, price, total, s) / price(s)
  }

  /** Buy orders for the under-allocated stocks among `visited`. */
  function BuyOrders(p: Portfolio, price: PriceOracle, total: real, visited: set<Stock>): map<Stock, real>
    requires visited <= p.stocks.Keys && PricedHoldings(p.stocks, price)
  {
    map s | s in visited && ValueDiff(p, price, total, s) < 0.0
      :: -(ValueDiff(p, price, total, s) / price(s))
  }

  /** Visiting one more stock adds at most its own sell order. */
  lemma SellOrdersVisit(p: Portfolio, price: PriceOracle, total: real, visited: set<Stock>, s: Stock)
    requires visited <= p.stocks.Keys && s in p.stocks && s !in visited && PricedHoldings(p.stocks, price)
    ensures SellOrders(p, price, total, visited + {s})
         == if ValueDiff(p, price, total, s) > 0.0
            then SellOrders(p, price, total, visited)[s := ValueDiff(p, price, total, s) / price(s)]
            else SellOrders(p, price, total, visited)
  {
  }

  /** Visiting one more stock adds at most its own buy order. */
  lemma BuyOrdersVisit(p: Portfolio, price: PriceOracle, total: real, visited: set<Stock>, s: Stock)
    requires visited <= p.stocks.Keys && s in p.stocks && s !in visited && PricedHoldings(p.stocks, price)
    ensures BuyOrders(p, price, total, visited + {s})
         == if ValueDiff(p, price, total, s) < 0.0
            then BuyOrders(p, price, total, visited)[s := -(ValueDiff(p, price, total, s) / price(s))]
            else BuyOrders(p, price, total, visited)
  {
  }

  /** The orders for all held stocks once the portfolio is known to be worth `total`. */
  function Orders(p: Portfolio, price: PriceOracle, total: real): Transaction
    requires PricedHoldings(p.stocks, price)
  {
    Transaction(SellOrders(p, price, total, p.stocks.Keys), BuyOrders(p, price, total, p.stocks.Keys))
  }

  /** The transaction that rebalances `p` at the prices of `price`. */
  ghost function RebalanceOrders(p: Portfolio, price: PriceOracle): Transaction
    requires PricedHoldings(p.stocks, price)
  {
    Orders(p, price, HoldingsValue(p.stocks, price))
  }

  /**
   Computes the portfolio value, then visits every held stock once and records
   a sell order when its value exceeds its target and a buy order when it
   falls short.
   */
  method Rebalance(p: Portfolio, price: PriceOracle) returns (t: Transaction)
    requires PricedHoldings(p.stocks, price)
    ensures t == RebalanceOrders(p, price)
  {
    var sell: map<Stock, real> := map[];
    var buy: map<Stock, real> := map[];
    var portfolioValue := TotalValue(p, price);
    var unvisited := p.stocks.Keys;
    ghost var visited: set<Stock> := {};
    while unvisited != {}
      invariant visited == p.stocks.Keys - unvisited && unvisited <= p.stocks.Keys
      invariant sell == SellOrders(p, price, portfolioValue, visited)
      invariant buy == BuyOrders(p, price, portfolioValue, visited)
      decreases unvisited
    {
      var stock :| stock in unvisited;
      var valueDiff := ValueDiff(p, price, portfolioValue, stock);
      var sharesDiff := valueDiff / price(stock);
      SellOrdersVisit(p, price, portfolioValue, visited, stock);
      BuyOrdersVisit(p, price, portfolioValue, visited, stock);
      if valueDiff > 0.0 {
        sell := sell[stock := sharesDiff];
      }
      if valueDiff < 0.0 {
        buy := buy[stock := -sharesDiff];
      }
      unvisited := unvisited - {stock};
      visited := visited + {stock};
    }
    t := Transaction(sell, buy);
  }
}
