/** Worked cases of the decision rule and the pagination. */
module Scenarios {
  import opened Wrappers
  import opened Exchange
  import opened Strategy
  import opened Pagination
  import opened Evaluation

  /** YES at 0.30 and NO at 0.70 with enough liquidity: betting on the unlikely
      outcome buys YES, max(notional / 0.30, minimum) tokens of it. */
  lemma UnlikelyBuysCheaperSide(liquidity: real, minimumOrderSize: real, orderSizeUsd: real)
    requires liquidity >= minimumOrderSize
    ensures ChooseOutcome(Unlikely, 0.30, 0.70, liquidity, liquidity, minimumOrderSize) == Some(Yes)
    ensures BetSize(orderSizeUsd, 0.30, minimumOrderSize)
         == if orderSizeUsd / 0.30 >= minimumOrderSize then orderSizeUsd / 0.30 else minimumOrderSize
  {
  }

  /** The same prices with the likely strategy buy NO. */
  lemma LikelyBuysDearerSide(liquidity: real, minimumOrderSize: real)
    requires liquidity >= minimumOrderSize
    ensures ChooseOutcome(Likely, 0.30, 0.70, liquidity, liquidity, minimumOrderSize) == Some(No)
  {
  }

  /** A YES price of 0.0005 is below the floor: neither strategy buys YES,
      whatever the liquidity. */
  lemma PriceBelowFloorNeverBought(noPrice: real, yesLiquidity: real, noLiquidity: real, minimumOrderSize: real)
    ensures ChooseOutcome(Likely, 0.0005, noPrice, yesLiquidity, noLiquidity, minimumOrderSize) != Some(Yes)
    ensures ChooseOutcome(Unlikely, 0.0005, noPrice, yesLiquidity, noLiquidity, minimumOrderSize) != Some(Yes)
  {
  }

  /** A YES token without an order book (404) skips an otherwise priced market
      and raises nothing. */
  lemma MissingBookSkipsMarket(client: Client, config: Config, market: Market)
    requires market.active && |market.tokens| == 2
    requires client.buyPrice(market.tokens[0].tokenId) == Some(0.4)
    requires client.sellPrice(market.tokens[1].tokenId) == Some(0.6)
    requires client.orderBook(market.tokens[0].tokenId) == ApiError(NotFound)
    ensures EvaluateMarket(client, config, market) == Ok(Skipped(NoOrderBook))
  {
  }

  /** A first page that ends the listing with no markets gives an empty
      listing, not an error. */
  lemma EmptyFirstPageEndsListing(later: seq<Page>)
    ensures Terminates([Page([], EndCursor)] + later)
    ensures Listing([Page([], EndCursor)] + later) == []
  {
    assert ([Page([], EndCursor)] + later)[0] == Page([], EndCursor);
  }
}
