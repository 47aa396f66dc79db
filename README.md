# fntl portfolio rebalancing, modelled in Dafny

This is a model of the portfolio rebalancer in `main.go`. A `Portfolio` holds a
number of shares per `Stock` (`Stocks`) and a target weight per stock
(`AllocatedStocks`). `Rebalance` first computes the portfolio value with
`totalValue`, the sum of shares times `CurrentPrice` over the holdings. It then
visits every held stock once. It records a sell order (`Sell[stock]`) when the
position is worth more than weight × portfolio value, and a buy order
(`Buy[stock]`) when it is worth less. The order is for the value difference
divided by the unit price.

Files:

- `stocks.dfy` (`Stocks`): stock names and the stubbed price table `CurrentPrice`.
- `sums.dfy` (`Sums`): the sum of a map's values, taken in no particular order.
  Lemmas show that any key can be taken out first, and that accumulating along
  any listing of the keys gives the same sum.
- `rebalancing.dfy` (`Rebalancing`): the `Portfolio` and `Transaction` types.
  - `TotalValue` and `Rebalance` are methods whose loops pick the next key
    arbitrarily. This is how a Go `range` over a map visits its keys.
  - Each method is proved equal to a specification function: `HoldingsValue`
    for `TotalValue`, `RebalanceOrders`/`Orders` for `Rebalance`.
- `properties.dfy` (`RebalancingProperties`): what a transaction guarantees.
  Most lemmas are stated for `Orders(p, price, total)` with any `total`. The
  transaction `Rebalance` returns is the case `total == HoldingsValue(...)`.
- `scenarios.dfy` (`RebalanceScenarios`): the four cases of `main_test.go` at the
  stubbed prices. They are compared the way the test compares them: every
  `Sell`/`Buy` lookup for AAPL and META, with a missing entry read as 0, must be
  within 0.001 of the expected value.

`float64` becomes `real`, so all arithmetic is exact. `CurrentPrice` in the
source stands in for a price service. `Rebalance` and `TotalValue` take the
price as a parameter `price: Stock -> real`, and the scenarios pass
`Stocks.CurrentPrice`. Every held stock must have a positive price
(`PricedHoldings`): main.go does not check prices, so a zero or negative price is left to the caller,
and with a zero price Go's division yields an infinity.

## Model

| member | source | states |
|---|---|---|
| Stocks.CurrentPrice | main.go:29-37 | the stub price is never negative. It is positive exactly for AAPL and META; any other stock reads 0 |
| Sums.SumRemove | main.go:47-50 | any one key can be added last (or first): the sum is that value plus the sum of the rest |
| Sums.SumInAnyOrder | main.go:47-50 | accumulating `value += m[k]` along any duplicate-free listing of all keys gives the order-independent sum |
| Sums.EnumerationExists | main.go:48 | every finite map has such a listing, so `SumInAnyOrder`'s hypothesis can always be met |
| Sums.SumNonNegative | main.go:46-53 | a sum of non-negative values is non-negative |
| Rebalancing.Weight | main.go:74 | definition: the allocated weight, with a stock missing from `AllocatedStocks` read as 0 (Go's zero value). Its consequences are stated in `OrderClassification` and `UnallocatedSoldInFull` |
| Rebalancing.PositionValues | main.go:48-49 | each position's value is shares × price, with exactly the keys of the holdings |
| Rebalancing.HoldingsValue | main.go:46-53 | definition: the order-independent sum of the position values. `TotalValue` is proved to return it; `HoldingsValueRemove` and `HoldingsValueInAnyOrder` state how it relates to the loop |
| Rebalancing.CurrentValue | main.go:73 | definition: shares × price of a held stock |
| Rebalancing.TargetValue | main.go:74 | definition: weight × portfolio value |
| Rebalancing.ValueDiff | main.go:73-81 | definition: current value minus target value. `OrderClassification` and `NetOrderValue` state what its sign and size decide |
| Rebalancing.SellOrders | main.go:81-88 | definition: the sell entries for the visited stocks, one per stock with a positive value difference. `SellOrdersVisit` states how one loop step extends it |
| Rebalancing.BuyOrders | main.go:81-92 | definition: the buy entries for the visited stocks, one per stock with a negative value difference. `BuyOrdersVisit` states how one loop step extends it |
| Rebalancing.Orders | main.go:72-93 | definition: the closed form of the loop, the sell and buy entries for all held stocks at a given portfolio value. Its properties are the `RebalancingProperties` lemmas |
| Rebalancing.RebalanceOrders | main.go:64-96 | definition: `Orders` at the portfolio value. `Rebalance` is proved to return it |
| Rebalancing.HoldingsValueRemove | main.go:48-50 | taking one position out of the holdings takes shares × price out of the portfolio value |
| Rebalancing.HoldingsValueInAnyOrder | main.go:47-50 | accumulating shares × price in any visiting order of the held stocks gives the portfolio value |
| Rebalancing.HoldingsValueNonNegative | main.go:46-53 | with no negative shares or prices, the portfolio value is non-negative |
| Rebalancing.TotalValue | main.go:46-53 | the loop, visiting the held stocks in an arbitrary order, returns the portfolio value (sum of shares × price) |
| Rebalancing.SellOrdersVisit | main.go:81-88 | visiting one more stock adds its sell entry exactly when its value difference is positive, and changes nothing else |
| Rebalancing.BuyOrdersVisit | main.go:81-92 | visiting one more stock adds its buy entry (the negated share difference) exactly when its value difference is negative, and changes nothing else |
| Rebalancing.Rebalance | main.go:64-96 | the loop, visiting the held stocks in an arbitrary order, returns exactly the transaction of `Orders` for the portfolio value it computed first |
| RebalancingProperties.OrderClassification | main.go:72-93 | a stock that is not held gets no order, whatever its weight. A held stock is in Sell iff current value > target value and in Buy iff current value < target value (a missing weight counts as 0). The order's shares × price equal the value gap |
| RebalancingProperties.OrdersWellFormed | main.go:81-92 | Sell and Buy are disjoint, their keys are held stocks, and every quantity is positive |
| RebalancingProperties.NoOrdersIffBalanced | main.go:81-92 | both maps are empty if and only if every held position is already worth weight × total |
| RebalancingProperties.UnallocatedSoldInFull | main.go:74-88 | a held stock with weight 0, or with no weight, is sold in full (exactly its shares) and not bought; with no shares it gets no order |
| RebalancingProperties.NetOrderValue | main.go:81-92 | shares sold minus shares bought, times the price, equal current value minus target value |
| RebalancingProperties.ApplyReachesTarget | main.go:73-92 | carrying out the orders at unchanged prices leaves each held position worth exactly weight × total |
| RebalancingProperties.ApplyReachesTargets | main.go:72-93 | after the orders, the portfolio (same allocation) is balanced for the same total |
| RebalancingProperties.BalancedWorthTargets | main.go:46-53 | a balanced portfolio is worth the sum of its target values |
| RebalancingProperties.RebalanceIdempotent | main.go:64-96 | when the target values of the held stocks add up to the portfolio value, the orders keep the portfolio value, and rebalancing the result gives two empty maps |
| RebalancingProperties.SellWithinHolding | main.go:81-88 | with a non-negative weight and total, a sell order never exceeds the shares held |
| RebalancingProperties.BuyWithinTarget | main.go:81-92 | with non-negative shares, a buy order is worth at most the target value |
| RebalancingProperties.OrdersWithinBounds | main.go:81-92 | with no negative shares or weights and a non-negative total, no sell exceeds the holding and no buy exceeds the target value |
| RebalancingProperties.RebalanceSellsOnlyHeldShares | main.go:64-96 | with no negative shares or weights, the rebalancing transaction never sells more shares than are held |
| RebalanceScenarios.PricedAtCurrentPrice | main.go:29-37 | holdings are all positively priced by the stub exactly when they hold only AAPL and META |
| RebalanceScenarios.TwoStockValue | main.go:46-53 | a portfolio of a AAPL and m META shares is worth a × price(AAPL) + m × price(META) |
| RebalanceScenarios.TwoStockOrders | main.go:70-74 | for AAPL/META holdings at the stub prices, the portfolio value is a × 201.28 + m × 670.05, and each stock's current value and weight are as given |
| RebalanceScenarios.SellMetaBuyAapl | main_test.go:15-34 | 20 AAPL and 6 META towards 0.6/0.4 sell only META (about 1.1968) and buy only AAPL (about 3.9837), each within 0.001 |
| RebalanceScenarios.BalancedPortfolio | main_test.go:35-48 | 23.9837 AAPL and 4.8032 META towards 0.6/0.4: all four lookups are within 0.001 of 0 |
| RebalanceScenarios.SellAllAaplBuyMeta | main_test.go:49-65 | towards 0.0/1.0 the sell map is exactly {AAPL: 20} and the buy map holds only META (about 6.0079) |
| RebalanceScenarios.SellAllMetaBuyAapl | main_test.go:66-82 | towards 1.0/0.0 the sell map is exactly {META: 6} and the buy map holds only AAPL (about 19.9737) |

## Left out

- `main` (main.go:6-16) only builds an example portfolio and prints the result. No output is modelled.
- Floating point: `float64` is modelled as exact `real`. Rounding is not modelled. In particular, floating-point addition is not associative, so the order-independence of `totalValue` holds only in exact arithmetic.
- Rebalancing.Rebalance: requires every held stock to have a positive price. With a zero price (any stock other than AAPL or META under the stub), Go divides by zero and records an infinite quantity, or a NaN that is never recorded. Infinities and NaN are not modelled.
- Rebalancing.TotalValue: prices come from the `price` parameter instead of a call to `CurrentPrice`. The scenarios pass `CurrentPrice` itself.
- RebalancingProperties.RebalanceIdempotent: the hypothesis is that the target values of the held stocks add up to the portfolio value. It is not stated as "the weights of the held stocks add up to 1". The two are equivalent for a non-zero portfolio value, but that step is not proved.
- Go maps are references, and `Rebalance` fills two maps it creates itself. The model treats the maps as values. Aliasing cannot arise, because nothing else sees the maps until they are returned.
- The testify harness and its failure messages (main_test.go:85-111) are not modelled. Only the four `InDelta` checks per case are stated, in `RebalanceScenarios.Matches`.
- The test named "Portfolio is balanced" does not get two empty maps in exact arithmetic. The rounded holdings are slightly off target, so `Rebalance` records a tiny sell of META and a tiny buy of AAPL (`RebalanceScenarios.BalancedPortfolio` states exactly these keys). The test still passes, because it only compares the lookups with 0 within 0.001. The model follows the code here, not the description of the case as "already balanced".
