/**
 The stocks a portfolio can hold and the stubbed market price of each.
 */
module Stocks {

  /** A ticker symbol. */
  type Stock = string

  const AAPL: Stock := "AAPL"
  const META: Stock := "META"

  /**
   The current unit price of `s`, read from a fixed two-entry table. A stock
   outside the table gets the zero price, as a missing key of a Go map does.
   */
  function CurrentPrice(s: Stock): (price: real)
    ensures price >= 0.0
    ensures price > 0.0 <==> s == AAPL || s == META
  {
    var currentPrice := map[AAPL := 201.28, META := 670.05];
    if s in currentPrice then currentPrice[s] else 0.0
  }
}
