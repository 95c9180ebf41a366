/** The per-market decision and the run accumulator of the script's main loop:
    every listed market is counted by minimum order size, filtered, priced,
    normalised, checked for liquidity, and possibly traded; trades add their
    metrics to the running totals. */
module Evaluation {
  import opened Wrappers
  import opened Exchange
  import opened Probabilities
  import opened Metrics
  import opened Liquidity
  import opened Strategy
  import opened Pagination

  /** The run's settings: the strategy string and the USD notional per trade. */
  datatype Config = Config(strategy: string, orderSizeUsd: real)

  /** The settings the script runs with. */
  const Configured: Config := Config(Unlikely, 1.0)

  /** Why a market produced no trade; each one moves on to the next market. */
  datatype SkipReason =
    | Inactive          // the market is not active
    | NotYesNo          // it does not have exactly two tokens
    | PriceMissing      // a quote is absent
    | ZeroPriceQuoted   // normalisation refused a zero price
    | NoOrderBook       // the YES token has no book (404)
    | NoEligibleSide    // the strategy, price range or liquidity rules out both sides

  /** The arguments of the order the script builds and signs; its side is
      always BUY, and `outcome` says which token it buys. */
  datatype Order = Order(tokenId: string, outcome: Outcome, price: real, size: real)

  datatype Trade = Trade(order: Order, winProbability: real, metrics: TradeMetrics)

  datatype Decision = Skipped(reason: SkipReason) | Traded(trade: Trade)

  /** Exceptions nobody catches: they end the run. */
  datatype Fatal =
    | BookFetchFailed(statusCode: int)   // an order-book error other than 404
    | ProbabilitiesDivideByZero          // 1/yes + 1/no == 0, i.e. yes == -no

  /** The trade on one outcome: size it, and compute its metrics. */
  function MakeTrade(tokenId: string, outcome: Outcome, price: real, winProbability: real,
                     orderSizeUsd: real, minimumOrderSize: real): (t: Trade)
    requires price > 0.0
    ensures t.order == Order(tokenId, outcome, price, t.order.size) && t.winProbability == winProbability
    ensures t.order.size >= minimumOrderSize && t.order.size * price >= orderSizeUsd
    ensures t.order.size == minimumOrderSize || t.order.size * price == orderSizeUsd
    ensures t.metrics.potentialLoss == t.order.size
    ensures t.metrics.potentialProfit == t.order.size * (1.0 - price)
    ensures t.metrics.expectedValue
         == winProbability * t.metrics.potentialProfit - (1.0 - winProbability) * t.metrics.potentialLoss
    ensures t.order.size != 0.0 ==> t.metrics.riskRewardRatio == 1.0 - price
    ensures t.order.size == 0.0 ==> t.metrics.riskRewardRatio == 0.0
  {
    var size := BetSize(orderSizeUsd, price, minimumOrderSize);
    Trade(Order(tokenId, outcome, price, size), winProbability,
          CalculateTradeMetrics(size, price, winProbability))
  }

  /** What a trade on a binary market must satisfy, given its two quotes, the
      two win probabilities and the YES and NO liquidities: it buys the chosen
      outcome's token at that outcome's quote, the strategy prefers that
      outcome, the price is tradable, that side's liquidity covers the minimum
      order size, the size is max(notional / price, minimum), the win
      probability is that outcome's, and the metrics are those of the order. */
  predicate TradeFits(config: Config, market: Market, yesPrice: real, noPrice: real,
                      winProbabilityYes: real, winProbabilityNo: real,
                      yesLiquidity: real, noLiquidity: real, t: Trade)
    requires |market.tokens| == 2
  {
    var yes := t.order.outcome == Yes;
    && t.order.tokenId == market.tokens[if yes then 0 else 1].tokenId
    && t.order.price == (if yes then yesPrice else noPrice)
    && Prefers(config.strategy, t.order.price, if yes then noPrice else yesPrice)
    && Tradable(t.order.price)
    && (if yes then yesLiquidity else noLiquidity) >= market.minimumOrderSize
    && t.order.size == BetSize(config.orderSizeUsd, t.order.price, market.minimumOrderSize)
    && t.winProbability == (if yes then winProbabilityYes else winProbabilityNo)
    && t.metrics == CalculateTradeMetrics(t.order.size, t.order.price, t.winProbability)
  }

  /** The strategy branch of the loop body, once prices, probabilities and
      liquidity are known. */
  function Decide(config: Config, market: Market, yesPrice: real, noPrice: real,
                  winProbabilityYes: real, winProbabilityNo: real,
                  yesLiquidity: real, noLiquidity: real): (d: Decision)
    requires |market.tokens| == 2
    ensures d.Skipped? ==> d.reason == NoEligibleSide
    ensures d.Traded? ==>
      TradeFits(config, market, yesPrice, noPrice, winProbabilityYes, winProbabilityNo,
                yesLiquidity, noLiquidity, d.trade)
    ensures d.Traded? <==>
      ChooseOutcome(config.strategy, yesPrice, noPrice, yesLiquidity, noLiquidity, market.minimumOrderSize).Some?
  {
    match ChooseOutcome(config.strategy, yesPrice, noPrice, yesLiquidity, noLiquidity, market.minimumOrderSize)
    case None => Skipped(NoEligibleSide)
    case Some(Yes) =>
      Traded(MakeTrade(market.tokens[0].tokenId, Yes, yesPrice, winProbabilityYes,
                       config.orderSizeUsd, market.minimumOrderSize))
    case Some(No) =>
      Traded(MakeTrade(market.tokens[1].tokenId, No, noPrice, winProbabilityNo,
                       config.orderSizeUsd, market.minimumOrderSize))
  }

  /** What the loop body does with one market (everything after the tally):
      the five filters in the script's order, then the strategy. */
  function EvaluateMarket(client: Client, config: Config, market: Market): (r: Result<Decision, Fatal>)
    ensures !market.active ==> r == Ok(Skipped(Inactive))
    ensures market.active && |market.tokens| != 2 ==> r == Ok(Skipped(NotYesNo))
    ensures r.Err? ==>
      market.active && |market.tokens| == 2
      && var book := client.orderBook(market.tokens[0].tokenId);
      (r.error == ProbabilitiesDivideByZero || (book.ApiError? && r.error == BookFetchFailed(book.statusCode)
                                                && book.statusCode != NotFound))
    ensures r.Ok? && r.value.Traded? ==>
      var yesQuote := client.buyPrice(market.tokens[0].tokenId);
      var noQuote := client.sellPrice(market.tokens[1].tokenId);
      var book := client.orderBook(market.tokens[0].tokenId);
      && market.active && |market.tokens| == 2
      && yesQuote.Some? && noQuote.Some? && book.Book?
      && NormalizeProbabilities(yesQuote.value, noQuote.value).Ok?
      && var (winProbabilityYes, winProbabilityNo) := NormalizeProbabilities(yesQuote.value, noQuote.value).value;
      TradeFits(config, market, yesQuote.value, noQuote.value, winProbabilityYes, winProbabilityNo,
                TotalSize(book.book.bids), TotalSize(book.book.asks), r.value.trade)
  {
    if !market.active then Ok(Skipped(Inactive))
    else if |market.tokens| != 2 then Ok(Skipped(NotYesNo))
    else
      var yesTokenId := market.tokens[0].tokenId;
      var noTokenId := market.tokens[1].tokenId;
      var yesQuote := client.buyPrice(yesTokenId);
      var noQuote := client.sellPrice(noTokenId);
      if yesQuote.None? || noQuote.None? then Ok(Skipped(PriceMissing))
      else
        var yesPrice := yesQuote.value;
        var noPrice := noQuote.value;
        match NormalizeProbabilities(yesPrice, noPrice)
        case Err(e) =>
          if e == ZeroPrice then Ok(Skipped(ZeroPriceQuoted)) else Err(ProbabilitiesDivideByZero)
        case Ok((winProbabilityYes, winProbabilityNo)) =>
          match GetOrderBookLiquidity(client, yesTokenId)
          case Err(status) => Err(BookFetchFailed(status))
          case Ok(None) => Ok(Skipped(NoOrderBook))
          case Ok(Some(totals)) =>
            Ok(Decide(config, market, yesPrice, noPrice, winProbabilityYes, winProbabilityNo,
                      totals.totalBids, totals.totalAsks))
  }

  /** The filters of the loop body in the script's order, for every binary
      active market: a missing quote, a zero quote, quotes that cancel out,
      a missing YES book and a failed YES book fetch; past them all, the
      market is traded exactly when the strategy rule picks an outcome. */
  lemma EvaluateMarketFilters(client: Client, config: Config, market: Market)
    requires market.active && |market.tokens| == 2
    ensures var r := EvaluateMarket(client, config, market);
      var yesQuote := client.buyPrice(market.tokens[0].tokenId);
      var noQuote := client.sellPrice(market.tokens[1].tokenId);
      (yesQuote.None? || noQuote.None?) ==> r == Ok(Skipped(PriceMissing))
    ensures var r := EvaluateMarket(client, config, market);
      var yesQuote := client.buyPrice(market.tokens[0].tokenId);
      var noQuote := client.sellPrice(market.tokens[1].tokenId);
      yesQuote.Some? && noQuote.Some? ==>
        var y, n := yesQuote.value, noQuote.value;
        && ((y == 0.0 || n == 0.0) ==> r == Ok(Skipped(ZeroPriceQuoted)))
        && (y != 0.0 && n != 0.0 && y + n == 0.0 ==> r == Err(ProbabilitiesDivideByZero))
    ensures var r := EvaluateMarket(client, config, market);
      var yesQuote := client.buyPrice(market.tokens[0].tokenId);
      var noQuote := client.sellPrice(market.tokens[1].tokenId);
      var book := client.orderBook(market.tokens[0].tokenId);
      yesQuote.Some? && noQuote.Some? && NormalizeProbabilities(yesQuote.value, noQuote.value).Ok? ==>
        && (book == ApiError(NotFound) ==> r == Ok(Skipped(NoOrderBook)))
        && (book.ApiError? && book.statusCode != NotFound ==> r == Err(BookFetchFailed(book.statusCode)))
        // both liquidities come from the YES token's book: its bids and its asks
        && (book.Book? ==>
              && r.Ok?
              && (r.value.Traded? <==>
                    ChooseOutcome(config.strategy, yesQuote.value, noQuote.value,
                                  TotalSize(book.book.bids), TotalSize(book.book.asks),
                                  market.minimumOrderSize).Some?)
              && (r.value.Skipped? ==> r.value.reason == NoEligibleSide))
  {
  }

  /** The run's running totals, as the script keeps them in local variables. */
  datatype Accumulator = Accumulator(
    totalPotentialProfit: real,
    totalPotentialLoss: real,
    totalRiskRewardRatio: real,
    totalExpectedValue: real,
    tradeCount: nat,
    minOrderSizeCount: map<real, nat>)

  const Initial: Accumulator := Accumulator(0.0, 0.0, 0.0, 0.0, 0, map[])

  /** The defaultdict increment: count one more market at `key`. */
  function CountOne(count: map<real, nat>, key: real): map<real, nat>
  {
    count[key := (if key in count then count[key] else 0) + 1]
  }

  /** Add a trade's metrics to the totals; the loss total grows by the size. */
  function Record(acc: Accumulator, t: Trade): (r: Accumulator)
    ensures r.tradeCount == acc.tradeCount + 1
    ensures forall measure :: Total(r, measure) == Total(acc, measure) + Amount(t, measure)
    ensures r.minOrderSizeCount == acc.minOrderSizeCount
  {
    acc.(totalPotentialProfit := acc.totalPotentialProfit + t.metrics.potentialProfit,
         totalPotentialLoss := acc.totalPotentialLoss + t.order.size,
         totalRiskRewardRatio := acc.totalRiskRewardRatio + t.metrics.riskRewardRatio,
         totalExpectedValue := acc.totalExpectedValue + t.metrics.expectedValue,
         tradeCount := acc.tradeCount + 1)
  }

  /** One iteration of the loop: the market is counted first, whatever follows;
      a skipped market changes nothing else, a trade adds its metrics, and a
      fatal error ends the run. */
  function Step(client: Client, config: Config, acc: Accumulator, market: Market): (r: Result<Accumulator, Fatal>)
    ensures r.Err? <==> EvaluateMarket(client, config, market).Err?
    ensures r.Err? ==> r.error == EvaluateMarket(client, config, market).error
    ensures r.Ok? ==> r.value.minOrderSizeCount == CountOne(acc.minOrderSizeCount, market.minimumOrderSize)
    ensures r.Ok? && EvaluateMarket(client, config, market).value.Skipped? ==>
      r.value == acc.(minOrderSizeCount := r.value.minOrderSizeCount)
    ensures r.Ok? && EvaluateMarket(client, config, market).value.Traded? ==>
      var t := EvaluateMarket(client, config, market).value.trade;
      && r.value.tradeCount == acc.tradeCount + 1
      && r.value.totalPotentialLoss == acc.totalPotentialLoss + t.order.size
      && r.value.totalPotentialProfit == acc.totalPotentialProfit + t.metrics.potentialProfit
      && r.value.totalRiskRewardRatio == acc.totalRiskRewardRatio + t.metrics.riskRewardRatio
      && r.value.totalExpectedValue == acc.totalExpectedValue + t.metrics.expectedValue
  {
    var counted := acc.(minOrderSizeCount := CountOne(acc.minOrderSizeCount, market.minimumOrderSize));
    match EvaluateMarket(client, config, market)
    case Err(f) => Err(f)
    case Ok(Skipped(_)) => Ok(counted)
    case Ok(Traded(t)) => Ok(Record(counted, t))
  }

  /** The loop over a sequence of markets, from the initial totals. */
  function Scan(client: Client, config: Config, markets: seq<Market>): (r: Result<Accumulator, Fatal>)
    ensures r.Ok? ==> r.value.tradeCount <= |markets|
    decreases |markets|
  {
    if markets == [] then Ok(Initial)
    else
      match Scan(client, config, markets[..|markets| - 1])
      case Err(f) => Err(f)
      case Ok(acc) => Step(client, config, acc, markets[|markets| - 1])
  }

  /** The loop body's effect on the totals after i markets, field by field. */
  lemma ScanAfterMarket(client: Client, config: Config, markets: seq<Market>, i: nat, acc: Accumulator)
    requires i < |markets| && Scan(client, config, markets[..i]) == Ok(acc)
    ensures var d := EvaluateMarket(client, config, markets[i]);
      var count := CountOne(acc.minOrderSizeCount, markets[i].minimumOrderSize);
      && (d.Err? ==> Scan(client, config, markets[..i + 1]) == Err(d.error))
      && (d.Ok? && d.value.Skipped? ==>
            Scan(client, config, markets[..i + 1]) == Ok(acc.(minOrderSizeCount := count)))
      && (d.Ok? && d.value.Traded? ==>
            var t := d.value.trade;
            Scan(client, config, markets[..i + 1]) ==
              Ok(Accumulator(acc.totalPotentialProfit + t.metrics.potentialProfit,
                             acc.totalPotentialLoss + t.order.size,
                             acc.totalRiskRewardRatio + t.metrics.riskRewardRatio,
                             acc.totalExpectedValue + t.metrics.expectedValue,
                             acc.tradeCount + 1, count)))
  {
    assert markets[..i + 1][..i] == markets[..i];
  }

  /** The trades a sequence of markets produces, in order. */
  function Trades(client: Client, config: Config, markets: seq<Market>): seq<Trade>
    decreases |markets|
  {
    if markets == [] then []
    else
      var d := EvaluateMarket(client, config, markets[|markets| - 1]);
      Trades(client, config, markets[..|markets| - 1])
        + (if d.Ok? && d.value.Traded? then [d.value.trade] else [])
  }

  /** The four quantities the run totals over its trades. */
  datatype Measure = Profit | Size | RiskReward | ExpectedValue

  function Amount(t: Trade, measure: Measure): real
  {
    match measure
    case Profit => t.metrics.potentialProfit
    case Size => t.order.size
    case RiskReward => t.metrics.riskRewardRatio
    case ExpectedValue => t.metrics.expectedValue
  }

  /** The running total the accumulator keeps for a measure. */
  function Total(acc: Accumulator, measure: Measure): real
  {
    match measure
    case Profit => acc.totalPotentialProfit
    case Size => acc.totalPotentialLoss
    case RiskReward => acc.totalRiskRewardRatio
    case ExpectedValue => acc.totalExpectedValue
  }

  /** The sum of one measure over the trades, added left to right. */
  function Sum(trades: seq<Trade>, measure: Measure): real
    decreases |trades|
  {
    if trades == [] then 0.0
    else Sum(trades[..|trades| - 1], measure) + Amount(trades[|trades| - 1], measure)
  }

  /** The number of markets with the given minimum order size. */
  function CountWithMinimum(markets: seq<Market>, key: real): nat
    decreases |markets|
  {
    if markets == [] then 0
    else CountWithMinimum(markets[..|markets| - 1], key)
         + (if markets[|markets| - 1].minimumOrderSize == key then 1 else 0)
  }

  /** The sum of the values of a tally. */
  ghost function TallyTotal(count: map<real, nat>): nat
    decreases |count|
  {
    if count == map[] then 0
    else
      EmptyOrHasKey(count);
      var k :| k in count;
      count[k] + TallyTotal(count - {k})
  }

  /** A tally is empty or has a key. */
  lemma EmptyOrHasKey(count: map<real, nat>)
    ensures count == map[] || exists k :: k in count
  {
    if forall k :: k !in count {
      assert count == map[];
    }
  }

  /** The key the sum takes out first. */
  lemma FirstKey(count: map<real, nat>) returns (k: real)
    requires count != map[]
    ensures k in count && TallyTotal(count) == count[k] + TallyTotal(count - {k})
  {
    EmptyOrHasKey(count);
    k :| k in count && TallyTotal(count) == count[k] + TallyTotal(count - {k});
  }

  /** The sum does not depend on which key is taken out first. */
  lemma {:induction false} TallyTotalWithout(count: map<real, nat>, key: real)
    requires key in count
    ensures TallyTotal(count) == count[key] + TallyTotal(count - {key})
    decreases |count|
  {
    var k := FirstKey(count);
    if k != key {
      var rest := count - {k};
      var restKey := count - {key};
      assert rest.Keys == count.Keys - {k};
      assert restKey.Keys == count.Keys - {key};
      TallyTotalWithout(rest, key);
      TallyTotalWithout(restKey, k);
      assert rest - {key} == restKey - {k};
    }
  }

  /** The increment touches one key: it gains a count of one (it starts
      from 0 when absent), and every other key keeps its count. */
  lemma CountOneIncrements(count: map<real, nat>, key: real)
    ensures CountOne(count, key).Keys == count.Keys + {key}
    ensures key in count ==> CountOne(count, key)[key] == count[key] + 1
    ensures key !in count ==> CountOne(count, key)[key] == 1
    ensures forall k :: k in count && k != key ==> CountOne(count, key)[k] == count[k]
  {
  }

  /** Counting one more market adds one to the tally's total. */
  lemma CountOneAddsOne(count: map<real, nat>, key: real)
    ensures TallyTotal(CountOne(count, key)) == TallyTotal(count) + 1
  {
    var next := CountOne(count, key);
    TallyTotalWithout(next, key);
    if key in count {
      TallyTotalWithout(count, key);
      assert next - {key} == count - {key};
    } else {
      assert next - {key} == count;
    }
  }

  /** A fatal error in a prefix of the markets ends the whole run with it. */
  lemma {:induction false} FatalEndsRun(client: Client, config: Config, markets: seq<Market>, k: nat)
    requires k <= |markets| && Scan(client, config, markets[..k]).Err?
    ensures Scan(client, config, markets) == Scan(client, config, markets[..k])
    decreases |markets|
  {
    if k < |markets| {
      var init := markets[..|markets| - 1];
      assert init[..k] == markets[..k];
      FatalEndsRun(client, config, init, k);
    } else {
      assert markets[..k] == markets;
    }
  }

  /** The totals after the loop are the sums over the trades made: the trade
      count is their number, the loss total is the sum of their sizes, and
      profit, risk/reward and expected value are the sums of their metrics. */
  lemma {:induction false} TotalsAreSumsOverTrades(client: Client, config: Config, markets: seq<Market>)
    ensures Scan(client, config, markets).Ok? ==>
      var acc := Scan(client, config, markets).value;
      var trades := Trades(client, config, markets);
      && acc.tradeCount == |trades|
      && acc.totalPotentialLoss == Sum(trades, Size)
      && acc.totalPotentialProfit == Sum(trades, Profit)
      && acc.totalRiskRewardRatio == Sum(trades, RiskReward)
      && acc.totalExpectedValue == Sum(trades, ExpectedValue)
    decreases |markets|
  {
    if markets != [] && Scan(client, config, markets).Ok? {
      var init := markets[..|markets| - 1];
      var last := markets[|markets| - 1];
      TotalsAreSumsOverTrades(client, config, init);
      var acc := Scan(client, config, init).value;
      assert Scan(client, config, markets) == Step(client, config, acc, last);
      var d := EvaluateMarket(client, config, last);
      var before := Trades(client, config, init);
      if d.value.Traded? {
        var after := before + [d.value.trade];
        assert Trades(client, config, markets) == after;
        assert after[..|after| - 1] == before;
      } else {
        assert Trades(client, config, markets) == before;
      }
    }
  }

  /** A run ends in a fatal error exactly when some market's evaluation
      raises one. */
  lemma {:induction false} FatalIffSomeMarketFails(client: Client, config: Config, markets: seq<Market>)
    ensures Scan(client, config, markets).Err? <==>
      exists m :: m in markets && EvaluateMarket(client, config, m).Err?
    decreases |markets|
  {
    if markets != [] {
      var init := markets[..|markets| - 1];
      var last := markets[|markets| - 1];
      FatalIffSomeMarketFails(client, config, init);
      assert markets == init + [last];
      assert forall m :: m in markets <==> m in init || m == last;
    }
  }

  /** Evaluating a market does not depend on what came before it. */
  lemma {:induction false} TradesOfConcat(client: Client, config: Config, a: seq<Market>, b: seq<Market>)
    ensures Trades(client, config, a + b) == Trades(client, config, a) + Trades(client, config, b)
    decreases |b|
  {
    if b == [] {
      assert a + b == a;
    } else {
      var b' := b[..|b| - 1];
      assert (a + b)[..|a + b| - 1] == a + b';
      assert (a + b)[|a + b| - 1] == b[|b| - 1];
      TradesOfConcat(client, config, a, b');
    }
  }

  lemma {:induction false} SumOfConcat(a: seq<Trade>, b: seq<Trade>, measure: Measure)
    ensures Sum(a + b, measure) == Sum(a, measure) + Sum(b, measure)
    decreases |b|
  {
    if b == [] {
      assert a + b == a;
    } else {
      var b' := b[..|b| - 1];
      assert (a + b)[..|a + b| - 1] == a + b';
      SumOfConcat(a, b', measure);
    }
  }

  /** Totals over two consecutive lists of markets add up. */
  lemma RunTotalsOfConcat(client: Client, config: Config, a: seq<Market>, b: seq<Market>, measure: Measure)
    ensures |Trades(client, config, a + b)| == |Trades(client, config, a)| + |Trades(client, config, b)|
    ensures Sum(Trades(client, config, a + b), measure)
         == Sum(Trades(client, config, a), measure) + Sum(Trades(client, config, b), measure)
  {
    TradesOfConcat(client, config, a, b);
    SumOfConcat(Trades(client, config, a), Trades(client, config, b), measure);
  }

  /** The number of trades and the sum of each measure do not depend on the
      order in which the markets are processed. */
  lemma {:induction false} TotalsIgnoreOrder(client: Client, config: Config, markets: seq<Market>,
                                             others: seq<Market>, measure: Measure)
    requires multiset(markets) == multiset(others)
    ensures |Trades(client, config, markets)| == |Trades(client, config, others)|
    ensures Sum(Trades(client, config, markets), measure) == Sum(Trades(client, config, others), measure)
    decreases |markets|
  {
    if markets == [] {
      assert |others| == |multiset(others)| == 0;
    } else {
      var x := markets[|markets| - 1];
      var init := markets[..|markets| - 1];
      var j := FindLast(markets, others);
      var left, right := others[..j], others[j + 1..];
      assert markets == init + [x];
      assert others == (left + [x]) + right;
      TotalsIgnoreOrder(client, config, init, left + right, measure);
      RunTotalsOfConcat(client, config, init, [x], measure);
      RunTotalsOfConcat(client, config, left, right, measure);
      RunTotalsOfConcat(client, config, left + [x], right, measure);
      RunTotalsOfConcat(client, config, left, [x], measure);
    }
  }

  /** Where the last market of one list sits in a permutation of it, and what
      is left of both lists once it is taken out. */
  lemma FindLast(markets: seq<Market>, others: seq<Market>) returns (j: nat)
    requires markets != [] && multiset(markets) == multiset(others)
    ensures j < |others| && others[j] == markets[|markets| - 1]
    ensures multiset(markets[..|markets| - 1]) == multiset(others[..j] + others[j + 1..])
  {
    var x := markets[|markets| - 1];
    var init := markets[..|markets| - 1];
    assert markets == init + [x];
    assert x in multiset(others);
    j :| 0 <= j < |others| && others[j] == x;
    var left, right := others[..j], others[j + 1..];
    assert others == left + [x] + right;
    var rest := left + right;
    assert multiset(markets) == multiset(init) + multiset{x};
    assert multiset(others) == multiset(rest) + multiset{x};
    CancelOne(multiset(init), multiset(rest), x);
  }

  /** Multiset addition of one element cancels. */
  lemma CancelOne(a: multiset<Market>, b: multiset<Market>, x: Market)
    requires a + multiset{x} == b + multiset{x}
    ensures a == b
  {
    forall y ensures a[y] == b[y] {
      assert (a + multiset{x})[y] == (b + multiset{x})[y];
    }
  }

  /** Processing the same markets in another order gives the same outcome
      kind, and on success the same trade count and totals. */
  lemma RunIgnoresOrder(client: Client, config: Config, markets: seq<Market>, others: seq<Market>)
    requires multiset(markets) == multiset(others)
    ensures Scan(client, config, markets).Ok? <==> Scan(client, config, others).Ok?
    ensures Scan(client, config, markets).Ok? ==>
      var acc, acc' := Scan(client, config, markets).value, Scan(client, config, others).value;
      && acc.tradeCount == acc'.tradeCount
      && acc.totalPotentialProfit == acc'.totalPotentialProfit
      && acc.totalPotentialLoss == acc'.totalPotentialLoss
      && acc.totalRiskRewardRatio == acc'.totalRiskRewardRatio
      && acc.totalExpectedValue == acc'.totalExpectedValue
  {
    FatalIffSomeMarketFails(client, config, markets);
    FatalIffSomeMarketFails(client, config, others);
    assert forall m :: m in markets <==> m in multiset(markets);
    assert forall m :: m in others <==> m in multiset(others);
    if Scan(client, config, markets).Ok? && Scan(client, config, others).Ok? {
      TotalsAreSumsOverTrades(client, config, markets);
      TotalsAreSumsOverTrades(client, config, others);
      TotalsIgnoreOrder(client, config, markets, others, Profit);
      TotalsIgnoreOrder(client, config, markets, others, Size);
      TotalsIgnoreOrder(client, config, markets, others, RiskReward);
      TotalsIgnoreOrder(client, config, markets, others, ExpectedValue);
    }
  }

  /** The minimum-order-size tally counts every market, filtered or not: each
      key's count is the number of markets with that minimum order size, and
      the counts add up to the number of markets. */
  lemma {:induction false} TallyCountsEveryMarket(client: Client, config: Config, markets: seq<Market>)
    ensures Scan(client, config, markets).Ok? ==>
      var count := Scan(client, config, markets).value.minOrderSizeCount;
      && TallyTotal(count) == |markets|
      && (forall key :: CountWithMinimum(markets, key) == if key in count then count[key] else 0)
    decreases |markets|
  {
    if markets != [] && Scan(client, config, markets).Ok? {
      var init := markets[..|markets| - 1];
      TallyCountsEveryMarket(client, config, init);
      var before := Scan(client, config, init).value.minOrderSizeCount;
      CountOneAddsOne(before, markets[|markets| - 1].minimumOrderSize);
    }
  }

  /** A trade the gates let through: a tradable price, at least the notional
      spent, and a risk/reward in [0, 0.999). */
  predicate Eligible(t: Trade, orderSizeUsd: real)
  {
    && Tradable(t.order.price)
    && t.order.size * t.order.price >= orderSizeUsd
    && 0.0 <= t.metrics.riskRewardRatio < 0.999
  }

  lemma TradeIsEligible(client: Client, config: Config, market: Market)
    ensures var d := EvaluateMarket(client, config, market);
      d.Ok? && d.value.Traded? ==> Eligible(d.value.trade, config.orderSizeUsd)
  {
    var d := EvaluateMarket(client, config, market);
    if d.Ok? && d.value.Traded? {
      var yesQuote := client.buyPrice(market.tokens[0].tokenId);
      var noQuote := client.sellPrice(market.tokens[1].tokenId);
      var book := client.orderBook(market.tokens[0].tokenId).book;
      var (winProbabilityYes, winProbabilityNo) := NormalizeProbabilities(yesQuote.value, noQuote.value).value;
      FittingTradeIsEligible(config, market, yesQuote.value, noQuote.value, winProbabilityYes, winProbabilityNo,
                             TotalSize(book.bids), TotalSize(book.asks), d.value.trade);
    }
  }

  /** Any trade that fits a market passes the gates. */
  lemma FittingTradeIsEligible(config: Config, market: Market, yesPrice: real, noPrice: real,
                               winProbabilityYes: real, winProbabilityNo: real,
                               yesLiquidity: real, noLiquidity: real, t: Trade)
    requires |market.tokens| == 2
    ensures TradeFits(config, market, yesPrice, noPrice, winProbabilityYes, winProbabilityNo,
                      yesLiquidity, noLiquidity, t)
            ==> Eligible(t, config.orderSizeUsd)
  {
    if TradeFits(config, market, yesPrice, noPrice, winProbabilityYes, winProbabilityNo,
                 yesLiquidity, noLiquidity, t) {
      var size := BetSize(config.orderSizeUsd, t.order.price, market.minimumOrderSize);
      var m := CalculateTradeMetrics(size, t.order.price, t.winProbability);
      assert t.metrics == m;
    }
  }

  /** Every trade of a run passed the gates. */
  lemma {:induction false} TradesAreEligible(client: Client, config: Config, markets: seq<Market>)
    ensures forall t :: t in Trades(client, config, markets) ==> Eligible(t, config.orderSizeUsd)
    decreases |markets|
  {
    if markets != [] {
      var init := markets[..|markets| - 1];
      TradesAreEligible(client, config, init);
      var d := EvaluateMarket(client, config, markets[|markets| - 1]);
      var before := Trades(client, config, init);
      if d.Ok? && d.value.Traded? {
        TradeIsEligible(client, config, markets[|markets| - 1]);
        assert Trades(client, config, markets) == before + [d.value.trade];
      } else {
        assert Trades(client, config, markets) == before;
      }
    }
  }

  /** The average risk/reward over the run: total over count, 0 with no trades. */
  function AverageRiskReward(acc: Accumulator): (avg: real)
    ensures acc.tradeCount == 0 ==> avg == 0.0
    ensures acc.tradeCount > 0 ==> avg * (acc.tradeCount as real) == acc.totalRiskRewardRatio
  {
    if acc.tradeCount > 0 then acc.totalRiskRewardRatio / (acc.tradeCount as real) else 0.0
  }

  lemma {:induction false} SumRiskRewardBounded(trades: seq<Trade>)
    requires forall t :: t in trades ==> 0.0 <= t.metrics.riskRewardRatio < 0.999
    ensures 0.0 <= Sum(trades, RiskReward) <= 0.999 * (|trades| as real)
    ensures |trades| > 0 ==> Sum(trades, RiskReward) < 0.999 * (|trades| as real)
    decreases |trades|
  {
    if trades != [] {
      var init := trades[..|trades| - 1];
      assert forall t :: t in init ==> t in trades;
      assert trades[|trades| - 1] in trades;
      SumRiskRewardBounded(init);
    }
  }

  /** Since every traded price is above 0.001, the run's average risk/reward
      is at least 0 and below 0.999. */
  lemma AverageRiskRewardBounded(client: Client, config: Config, markets: seq<Market>)
    ensures Scan(client, config, markets).Ok? ==>
      0.0 <= AverageRiskReward(Scan(client, config, markets).value) < 0.999
  {
    if Scan(client, config, markets).Ok? {
      var acc := Scan(client, config, markets).value;
      var trades := Trades(client, config, markets);
      TotalsAreSumsOverTrades(client, config, markets);
      TradesAreEligible(client, config, markets);
      SumRiskRewardBounded(trades);
      if acc.tradeCount > 0 {
        QuotientBounded(acc.totalRiskRewardRatio, acc.tradeCount as real);
      }
    }
  }

  lemma QuotientBounded(total: real, n: real)
    requires n > 0.0 && 0.0 <= total < 0.999 * n
    ensures 0.0 <= total / n < 0.999
  {
    var q := total / n;
    assert q * n == total;
    assert (0.999 - q) * n > 0.0;
  }

  /** What the run reports at the end. */
  datatype Summary = Summary(totals: Accumulator, averageRiskRewardRatio: real)

  /** The script's loop over the markets with its local running totals. */
  method EvaluateMarkets(client: Client, config: Config, markets: seq<Market>) returns (r: Result<Summary, Fatal>)
    ensures Scan(client, config, markets).Err? ==> r == Err(Scan(client, config, markets).error)
    ensures Scan(client, config, markets).Ok? ==>
      r == Ok(Summary(Scan(client, config, markets).value, AverageRiskReward(Scan(client, config, markets).value)))
  {
    var minOrderSizeCount: map<real, nat> := map[];
    var totalPotentialProfit := 0.0;
    var totalPotentialLoss := 0.0;
    var totalRiskRewardRatio := 0.0;
    var totalExpectedValue := 0.0;
    var tradeCount: nat := 0;
    var i := 0;
    while i < |markets|
      invariant 0 <= i <= |markets|
      invariant Scan(client, config, markets[..i]) ==
        Ok(Accumulator(totalPotentialProfit, totalPotentialLoss, totalRiskRewardRatio,
                       totalExpectedValue, tradeCount, minOrderSizeCount))
    {
      var market := markets[i];
      ghost var acc := Accumulator(totalPotentialProfit, totalPotentialLoss, totalRiskRewardRatio,
                                   totalExpectedValue, tradeCount, minOrderSizeCount);
      ScanAfterMarket(client, config, markets, i, acc);
      minOrderSizeCount := CountOne(minOrderSizeCount, market.minimumOrderSize);
      var decision := EvaluateMarket(client, config, market);
      if decision.Err? {
        FatalEndsRun(client, config, markets, i + 1);
        return Err(decision.error);
      }
      if decision.value.Traded? {
        var t := decision.value.trade;
        totalPotentialProfit := totalPotentialProfit + t.metrics.potentialProfit;
        totalPotentialLoss := totalPotentialLoss + t.order.size;
        totalRiskRewardRatio := totalRiskRewardRatio + t.metrics.riskRewardRatio;
        totalExpectedValue := totalExpectedValue + t.metrics.expectedValue;
        tradeCount := tradeCount + 1;
      }
      i := i + 1;
    }
    assert markets[..i] == markets;
    var averageRiskRewardRatio := if tradeCount > 0 then totalRiskRewardRatio / (tradeCount as real) else 0.0;
    var totals := Accumulator(totalPotentialProfit, totalPotentialLoss, totalRiskRewardRatio,
                              totalExpectedValue, tradeCount, minOrderSizeCount);
    r := Ok(Summary(totals, averageRiskRewardRatio));
  }

  /** One pass of the script after login: list every market, then evaluate
      them all with the configured strategy and notional. */
  method RunPass(pages: seq<Page>, client: Client) returns (r: Result<Summary, Fatal>)
    requires Terminates(pages)
    ensures Scan(client, Configured, Listing(pages)).Err? ==>
      r == Err(Scan(client, Configured, Listing(pages)).error)
    ensures Scan(client, Configured, Listing(pages)).Ok? ==>
      var acc := Scan(client, Configured, Listing(pages)).value;
      r == Ok(Summary(acc, AverageRiskReward(acc)))
    ensures r.Ok? ==>
      var trades := Trades(client, Configured, Listing(pages));
      && r.value.totals.tradeCount == |trades|
      && r.value.totals.totalPotentialLoss == Sum(trades, Size)
      && r.value.totals.totalPotentialProfit == Sum(trades, Profit)
      && r.value.totals.totalExpectedValue == Sum(trades, ExpectedValue)
      && TallyTotal(r.value.totals.minOrderSizeCount) == |Listing(pages)|
      && 0.0 <= r.value.averageRiskRewardRatio < 0.999
  {
    var markets, _ := GetAllMarkets(pages);
    r := EvaluateMarkets(client, Configured, markets);
    TotalsAreSumsOverTrades(client, Configured, markets);
    TallyCountsEveryMarket(client, Configured, markets);
    AverageRiskRewardBounded(client, Configured, markets);
  }
}
