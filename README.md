# Polymarket all-in trader: market evaluation and trade decisions

A Dafny model of the decision core of `trade.py`. The script lists every
sampling market of the Polymarket CLOB. It prices both outcome tokens and
turns the two prices into win probabilities. It totals the YES token's order
book, picks a side under the `'likely'` or `'unlikely'` strategy, sizes the
bet, computes its metrics, and adds them to the run's totals.

The exchange client is reduced to the answers it gives:

- the listing service is the sequence of pages it answers, in the order they are asked for;
- the quotes are `Option<real>`, the buy quote of the YES token and the sell quote of the NO token;
- the order-book endpoint answers a book or an API error with its HTTP status.

Prices and sizes are exact `real`s.

Modules, one per component:

- `Exchange` (`exchange.dfy`): the records (market, token, page, order book, client answers) and the end-of-list cursor `"LTE="`.
- `Pagination` (`pagination.dfy`): `get_all_markets`, as a method with the script's loop, proved against the spec function `Listing`.
- `Probabilities` (`probabilities.dfy`): `normalize_probabilities`.
- `Metrics` (`metrics.dfy`): `calculate_trade_metrics`.
- `Liquidity` (`liquidity.dfy`): the totals of `get_order_book_liquidity`, with the 404 branch.
- `Strategy` (`strategy.dfy`): the side choice of the two strategies and the bet size.
- `Evaluation` (`evaluation.dfy`): the body of `main`'s loop for one market (`EvaluateMarket`), the run as a spec function (`Scan`), and the loop itself with its local totals (`EvaluateMarkets`).
- `Scenarios` (`scenarios.dfy`): worked cases.

Behaviours of the script the model keeps:

- Normalisation fails in two ways. A zero price raises `ValueError`, which the loop catches, so the market is skipped. When the YES price is minus the NO price, `1/yes + 1/no` is 0 and the division raises `ZeroDivisionError`. Nothing catches that, so the run ends (`Fatal.ProbabilitiesDivideByZero`).
- Both "YES liquidity" and "NO liquidity" are the YES token's book: its total bids and its total asks. The NO token's book is never asked for.
- The minimum-order-size tally is incremented before the active and token-count filters, so it counts every listed market.
- The potential loss is the size, which is a number of tokens. It is not the amount paid, size × price. So the expected value of a bet is positive only when the win probability exceeds 1/(2 − price) (`Metrics.PositiveExpectedValue`).

## Model

| member | source | states |
|---|---|---|
| `Pagination.GetAllMarkets` | trade.py:11-21 | returns exactly `Listing(pages)`; sends `""` first, then each page's `next_cursor`, one request per page up to the first end-of-list page |
| `Pagination.ListingIsConcatToLastPage` | trade.py:14-20 | the listing is the concatenation, in server order, of every page's data up to and including the first page whose cursor is `'LTE='` |
| `Pagination.ListingMembership` | trade.py:16-17 | a market is listed iff some page up to the first end-of-list page holds it |
| `Probabilities.NormalizeProbabilities` | trade.py:67-75 | fails with the zero-price error iff either price is 0; fails with division by zero iff both are non-zero and sum to 0 |
| `Probabilities.InverseSum` | trade.py:72 | `1/yes + 1/no` times `yes·no` is `yes + no`, so the inverse total vanishes exactly when the prices cancel |
| `Probabilities.NormalizedClosedForm` | trade.py:72-75 | on success, p_yes = no/(yes+no) and p_no = yes/(yes+no); they sum to 1 and p_yes·yes = p_no·no |
| `Probabilities.NormalizedInUnitInterval` | trade.py:69-75 | strictly positive prices always normalise, and both probabilities lie strictly in (0, 1) |
| `Probabilities.CheaperIsLikelier` | trade.py:72-75 | for positive prices, the YES price is lower iff the YES probability is higher |
| `Metrics.CalculateTradeMetrics` | trade.py:59-64 | loss = size; profit = size·(1−price); risk/reward = 1−price (= profit/loss) for a non-zero size and 0 for size 0; EV = wp·profit − (1−wp)·loss |
| `Metrics.PositiveExpectedValue` | trade.py:60-63 | for a positive size, the EV is positive iff wp·(2−price) > 1 |
| `Liquidity.TotalSize` | trade.py:42-43 | 0 for an empty side and the level's size for a single level; with `TotalsOfConcat` this fixes the total as the sum of all sizes |
| `Liquidity.TotalValue` | trade.py:46-47 | 0 for an empty side and size × price for a single level; with `TotalsOfConcat` this fixes the total as the sum of size × price |
| `Liquidity.GetOrderBookLiquidity` | trade.py:39-56 | a 404 gives the all-None answer; any other API error is re-raised with its status; a book gives its totals |
| `Liquidity.TotalsOfConcat` | trade.py:42-47 | the size and size×price totals are additive over any split of the levels |
| `Liquidity.ValueBoundedBySize` | trade.py:42-47 | with non-negative sizes and prices in [0,1], 0 ≤ USD value ≤ token quantity |
| `Strategy.ChooseOutcome` | trade.py:169-262 | buys YES iff the strategy prefers it (`'likely'`: strictly dearer; `'unlikely'`: strictly cheaper), its price is in (0.001, 1.0), and YES liquidity ≥ the minimum; the same for NO; ties and other strategy strings never trade |
| `Strategy.StrategiesNeverAgree` | trade.py:169-262 | on the same market, the two strategies never buy the same outcome |
| `Strategy.BetSize` | trade.py:173 | the size is at least the minimum order size, size·price ≥ the notional, and it equals one of the two |
| `Evaluation.MakeTrade` | trade.py:173-176 | the order buys the given token at the given price; its size is at least the minimum, spends at least the notional and equals one of the two; its loss is the size, its profit size·(1−price), its risk/reward 1−price (0 for a zero size), and its EV wp·profit − (1−wp)·loss |
| `Evaluation.Decide` | trade.py:168-287 | trades exactly when the strategy rule picks an outcome, and then the trade fits: the chosen token at its quote, preferred, tradable, liquid enough, size = max(notional/price, minimum), the chosen side's win probability, and the metrics of that order |
| `Evaluation.EvaluateMarket` | trade.py:136-287 | skips inactive and non-binary markets; a fatal result is a division by zero or a non-404 book error on the YES token; a trade has both quotes, normalisable prices and a book, buys the chosen outcome's token at that outcome's quote, is preferred by the strategy, is tradable and liquid enough (YES: bids, NO: asks of the YES book), has size max(notional/price, minimum), carries the normalised probability of its side and the metrics of the order |
| `Evaluation.EvaluateMarketFilters` | trade.py:143-175 | for an active binary market: a missing quote skips it; a zero quote skips it; non-zero quotes that cancel end the run with division by zero; past normalisation, a 404 on the YES book skips it, any other book error ends the run with that status, and a book leads to a trade exactly when the strategy rule picks an outcome, and otherwise to a skip because no side is eligible |
| `Evaluation.CountOneIncrements` | trade.py:128 | the defaultdict increment gives the key one more count (1 when it was absent) and leaves every other key's count alone |
| `Evaluation.Record` | trade.py:178-182 | a trade adds one to the count and its profit, size, risk/reward and EV to the matching totals; the tally is unchanged |
| `Evaluation.Step` | trade.py:128-182 | every market is counted in the tally first; a skipped market changes nothing else; a trade adds one to the count, its size to the loss total, and its profit, risk/reward and EV to theirs; a fatal error ends the run with that market's own exception |
| `Evaluation.Scan` | trade.py:119-182 | a run that does not fail makes at most one trade per market |
| `Evaluation.CountOneAddsOne` | trade.py:128 | the defaultdict increment adds exactly one to the sum of the tally's values |
| `Evaluation.FatalEndsRun` | trade.py:51-56 | once a prefix of the markets hits an uncaught exception, the run's result is that exception |
| `Evaluation.FatalIffSomeMarketFails` | trade.py:150-161 | the run fails iff the evaluation of some listed market raises an uncaught exception |
| `Evaluation.TotalsAreSumsOverTrades` | trade.py:113-182 | after the loop, `trade_count` is the number of trades; the loss total is the sum of the sizes; profit, risk/reward and EV totals are the sums over the trades |
| `Evaluation.TallyCountsEveryMarket` | trade.py:110-128 | each tally value is the number of markets with that minimum order size, inactive ones included; the values sum to the number of markets |
| `Evaluation.TradeIsEligible` | trade.py:171-175 | a traded market's order has a tradable price, spends at least the notional, and has risk/reward in [0, 0.999) |
| `Evaluation.TradesAreEligible` | trade.py:171-175 | every trade of a run passes those gates |
| `Evaluation.RunTotalsOfConcat` | trade.py:119-287 | the trade count and each total over two consecutive lists of markets add up |
| `Evaluation.TotalsIgnoreOrder` | trade.py:178-182 | the trade count and each total are the same for any permutation of the markets |
| `Evaluation.RunIgnoresOrder` | trade.py:119-287 | a permutation of the markets fails iff the original does; otherwise it gives the same count and totals |
| `Evaluation.AverageRiskReward` | trade.py:290 | 0 when there are no trades, otherwise the value whose product with the count is the total |
| `Evaluation.AverageRiskRewardBounded` | trade.py:171-290 | since traded prices lie in (0.001, 1.0), the run's average risk/reward is in [0, 0.999) |
| `Evaluation.EvaluateMarkets` | trade.py:110-290 | the loop over local totals computes the run `Scan`: its fatal error, or its totals with their average risk/reward (`AverageRiskReward`) |
| `Evaluation.RunPass` | trade.py:102-290 | lists the markets, then evaluates them all with the `'unlikely'` strategy and a 1.0 USD notional: its result is that run's fatal error, or its totals with their average risk/reward; on success the count is the number of trades, the loss, profit and EV totals are sums over the trades, the tally sums to the number of listed markets, and the average lies in [0, 0.999) |
| `Scenarios.UnlikelyBuysCheaperSide` | trade.py:231-235 | YES 0.30 / NO 0.70 with enough liquidity: `'unlikely'` buys YES, max(notional/0.30, minimum) tokens |
| `Scenarios.LikelyBuysDearerSide` | trade.py:169-203 | the same prices with `'likely'` buy NO |
| `Scenarios.PriceBelowFloorNeverBought` | trade.py:171 | a YES price of 0.0005 is never bought by either strategy |
| `Scenarios.MissingBookSkipsMarket` | trade.py:51-54 | a 404 on the YES book skips a priced market without an error |
| `Scenarios.EmptyFirstPageEndsListing` | trade.py:18-21 | a first page with the end cursor and no data gives an empty listing |

## Left out

- Credentials (`Account.from_key`, `create_or_derive_api_creds`) and the private key: key management in a foreign library.
- `client.create_order` signing and the commented-out `post_order`. The model produces the order's arguments (token, price, size; the side is always BUY) and stops there.
- `get_market_prices`: its exception swallowing and float parsing are not modelled. A quote is an `Option<real>`; a failed request is `None`.
- Transport failures other than the order-book API error: the listing and quote calls never fail in the model.
- All printing and `:.2f` formatting, and the markets' start and end dates, which are only printed.
- IEEE floating point: prices, sizes and totals are exact reals. So "the probabilities sum to 1" holds exactly, and totals are order-independent exactly.
- Pagination against a server that never sends `'LTE='`. `GetAllMarkets` requires that some page carries it, and the script would loop forever otherwise. The server's answer is the next page in sequence, not a function of the cursor sent.
- The exchange answers as a fixed function of the token id, so a quote or a book is the same wherever in the run it is asked for. `TotalsIgnoreOrder` and `RunIgnoresOrder` rest on this; a live exchange can answer differently between requests.
- The settings `trade_strategy = 'unlikely'` and `order_size_usd = 1.0` are a `Config` parameter. `RunPass` uses them as the script sets them.
