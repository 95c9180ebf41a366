/** calculate_trade_metrics: the economics the script attaches to an order of
    `size` outcome tokens at `price`. As in the script, the potential loss is
    the size itself (not size × price, the amount actually paid). */
module Metrics {

  datatype TradeMetrics = TradeMetrics(
    potentialProfit: real,
    potentialLoss: real,
    riskRewardRatio: real,
    expectedValue: real)

  function CalculateTradeMetrics(size: real, price: real, winProbability: real): (m: TradeMetrics)
    // the whole size is counted as lost when the bet fails
    ensures m.potentialLoss == size
    // a winning token pays 1, of which `price` was paid
    ensures m.potentialProfit == size * (1.0 - price)
    // risk/reward is profit per unit of loss, i.e. 1 - price; 0 for a zero size
    ensures size != 0.0 ==> m.riskRewardRatio == 1.0 - price
    ensures size != 0.0 ==> m.riskRewardRatio * m.potentialLoss == m.potentialProfit
    ensures size == 0.0 ==> m.riskRewardRatio == 0.0
    // probability-weighted profit minus probability-weighted loss
    ensures m.expectedValue == winProbability * m.potentialProfit - (1.0 - winProbability) * m.potentialLoss
  {
    var potentialProfit := size * (1.0 - price);
    var potentialLoss := size;
    var riskRewardRatio := if potentialLoss != 0.0 then potentialProfit / potentialLoss else 0.0;
    assert size != 0.0 ==> riskRewardRatio == 1.0 - price by {
      if size != 0.0 {
        ProfitPerUnitOfLoss(size, price);
      }
    }
    var expectedValue := winProbability * potentialProfit - (1.0 - winProbability) * potentialLoss;
    TradeMetrics(potentialProfit, potentialLoss, riskRewardRatio, expectedValue)
  }

  /** Dividing the profit by a non-zero size leaves 1 - price. */
  lemma ProfitPerUnitOfLoss(size: real, price: real)
    requires size != 0.0
    ensures (size * (1.0 - price)) / size == 1.0 - price
  {
    var profit := size * (1.0 - price);
    var q := profit / size;
    assert q * size == profit;
    assert (1.0 - price) * size == profit;
    CancelFactor(q, 1.0 - price, size);
  }

  lemma CancelFactor(x: real, y: real, b: real)
    requires b != 0.0 && x * b == y * b
    ensures x == y
  {
    assert (x - y) * b == 0.0;
  }

  /** With the loss counted as the full size, a bet of positive size has
      positive expected value exactly when the win probability exceeds
      1 / (2 - price), not the price itself. */
  lemma PositiveExpectedValue(size: real, price: real, winProbability: real)
    requires size > 0.0
    ensures CalculateTradeMetrics(size, price, winProbability).expectedValue > 0.0
        <==> winProbability * (2.0 - price) > 1.0
  {
    var m := CalculateTradeMetrics(size, price, winProbability);
    var edge := winProbability * (2.0 - price) - 1.0;
    assert m.expectedValue == size * edge by {
      assert winProbability * (size * (1.0 - price)) == size * (winProbability * (1.0 - price));
      assert (1.0 - winProbability) * size == size * (1.0 - winProbability);
      assert size * (winProbability * (1.0 - price)) - size * (1.0 - winProbability)
          == size * (winProbability * (1.0 - price) - (1.0 - winProbability));
    }
    assert edge > 0.0 ==> size * edge > 0.0;
    assert edge <= 0.0 ==> size * edge <= 0.0;
  }
}
