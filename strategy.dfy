/** The side-selection rule and the bet sizing of the trading loop. */
module Strategy {
  import opened Wrappers

  /** The two recognised values of the strategy setting. */
  const Likely: string := "likely"
  const Unlikely: string := "unlikely"

  /** The two outcomes of a binary market. */
  datatype Outcome = Yes | No

  /** A price the script is willing to buy at: strictly between 0.001 and 1.0. */
  predicate Tradable(price: real)
  {
    0.001 < price < 1.0
  }

  /** Whether `strategy` prefers an outcome priced `price` over one priced
      `otherPrice`: the strictly dearer one when betting on the likely outcome,
      the strictly cheaper one when betting on the unlikely outcome. */
  predicate Prefers(strategy: string, price: real, otherPrice: real)
  {
    (strategy == Likely && price > otherPrice) || (strategy == Unlikely && price < otherPrice)
  }

  /** The branch structure of the loop body: for 'likely', YES if it is dearer
      and tradable, else NO if it is dearer and tradable; for 'unlikely' the
      same with cheaper; a side whose liquidity is below the minimum order
      size is not traded (and the other side is not tried instead). */
  function ChooseOutcome(strategy: string, yesPrice: real, noPrice: real,
                         yesLiquidity: real, noLiquidity: real, minimumOrderSize: real): (pick: Option<Outcome>)
    ensures pick == Some(Yes) <==>
      Prefers(strategy, yesPrice, noPrice) && Tradable(yesPrice) && yesLiquidity >= minimumOrderSize
    ensures pick == Some(No) <==>
      Prefers(strategy, noPrice, yesPrice) && Tradable(noPrice) && noLiquidity >= minimumOrderSize
    ensures yesPrice == noPrice ==> pick == None
    ensures strategy != Likely && strategy != Unlikely ==> pick == None
  {
    if strategy == Likely then
      if yesPrice > noPrice && 0.001 < yesPrice < 1.0 then
        if yesLiquidity >= minimumOrderSize then Some(Yes) else None
      else if noPrice > yesPrice && 0.001 < noPrice < 1.0 then
        if noLiquidity >= minimumOrderSize then Some(No) else None
      else None
    else if strategy == Unlikely then
      if yesPrice < noPrice && 0.001 < yesPrice < 1.0 then
        if yesLiquidity >= minimumOrderSize then Some(Yes) else None
      else if noPrice < yesPrice && 0.001 < noPrice < 1.0 then
        if noLiquidity >= minimumOrderSize then Some(No) else None
      else None
    else None
  }

  /** The two strategies never buy the same outcome of the same market. */
  lemma StrategiesNeverAgree(yesPrice: real, noPrice: real,
                             yesLiquidity: real, noLiquidity: real, minimumOrderSize: real)
    ensures var likely := ChooseOutcome(Likely, yesPrice, noPrice, yesLiquidity, noLiquidity, minimumOrderSize);
      var unlikely := ChooseOutcome(Unlikely, yesPrice, noPrice, yesLiquidity, noLiquidity, minimumOrderSize);
      likely.Some? && unlikely.Some? ==> likely.value != unlikely.value
  {
  }

  /** The number of tokens to buy: enough to spend `orderSizeUsd`, but never
      fewer than the market's minimum order size. */
  function BetSize(orderSizeUsd: real, price: real, minimumOrderSize: real): (size: real)
    requires price > 0.0
    ensures size >= minimumOrderSize
    ensures size * price >= orderSizeUsd
    ensures size == minimumOrderSize || size * price == orderSizeUsd
  {
    var notional := orderSizeUsd / price;
    if notional >= minimumOrderSize then notional else minimumOrderSize
  }
}
