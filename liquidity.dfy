/** The order-book aggregation of get_order_book_liquidity: total quantity and
    total USD value resting on each side of one token's book. */
module Liquidity {
  import opened Wrappers
  import opened Exchange

  /** Sum of the sizes of the levels, added left to right. */
  function TotalSize(levels: seq<OrderLevel>): (total: real)
    ensures levels == [] ==> total == 0.0
    ensures |levels| == 1 ==> total == levels[0].size
    decreases |levels|
  {
    if levels == [] then 0.0 else TotalSize(levels[..|levels| - 1]) + levels[|levels| - 1].size
  }

  /** The USD value of one level: its size times its price. */
  function LevelValue(level: OrderLevel): real
  {
    level.size * level.price
  }

  /** Sum of size × price over the levels, added left to right. */
  function TotalValue(levels: seq<OrderLevel>): (total: real)
    ensures levels == [] ==> total == 0.0
    ensures |levels| == 1 ==> total == LevelValue(levels[0])
    decreases |levels|
  {
    if levels == [] then 0.0
    else TotalValue(levels[..|levels| - 1]) + LevelValue(levels[|levels| - 1])
  }

  datatype LiquidityTotals = LiquidityTotals(
    totalBids: real,
    totalAsks: real,
    totalBidsUsdValue: real,
    totalAsksUsdValue: real)

  /** Fetch the book of `tokenId` and total it. A 404 ("no order book exists")
      gives Ok(None), the all-None answer; any other API error is re-raised,
      here Err with its status code. */
  function GetOrderBookLiquidity(client: Client, tokenId: string): (r: Result<Option<LiquidityTotals>, int>)
    ensures r.Err? <==> client.orderBook(tokenId).ApiError? && client.orderBook(tokenId).statusCode != NotFound
    ensures r.Err? ==> r.error == client.orderBook(tokenId).statusCode
    ensures r == Ok(None) <==> client.orderBook(tokenId) == ApiError(NotFound)
    ensures r.Ok? && r.value.Some? ==> client.orderBook(tokenId).Book?
    ensures client.orderBook(tokenId).Book? ==>
      var book := client.orderBook(tokenId).book;
      r == Ok(Some(LiquidityTotals(TotalSize(book.bids), TotalSize(book.asks),
                                   TotalValue(book.bids), TotalValue(book.asks))))
  {
    match client.orderBook(tokenId)
    case Book(book) =>
      Ok(Some(LiquidityTotals(
        TotalSize(book.bids), TotalSize(book.asks),
        TotalValue(book.bids), TotalValue(book.asks))))
    case ApiError(status) =>
      if status == NotFound then Ok(None) else Err(status)
  }

  /** Totalling splits over concatenation: the book's total is the sum of the
      totals of any split of its levels. */
  lemma {:induction false} TotalsOfConcat(a: seq<OrderLevel>, b: seq<OrderLevel>)
    ensures TotalSize(a + b) == TotalSize(a) + TotalSize(b)
    ensures TotalValue(a + b) == TotalValue(a) + TotalValue(b)
    decreases |b|
  {
    if b == [] {
      assert a + b == a;
    } else {
      var b' := b[..|b| - 1];
      assert (a + b)[..|a + b| - 1] == a + b';
      TotalsOfConcat(a, b');
    }
  }

  /** With non-negative sizes and prices at most 1, the USD value of a side
      never exceeds its token quantity, and neither is negative. */
  lemma {:induction false} ValueBoundedBySize(levels: seq<OrderLevel>)
    requires forall i :: 0 <= i < |levels| ==> Resting(levels[i])
    ensures 0.0 <= TotalValue(levels) <= TotalSize(levels)
    decreases |levels|
  {
    if levels != [] {
      var init := levels[..|levels| - 1];
      var last := levels[|levels| - 1];
      assert forall i :: 0 <= i < |init| ==> init[i] == levels[i];
      ValueBoundedBySize(init);
      assert Resting(last);
      LevelValueBounded(last);
    }
  }

  /** A level as the book shows it: a non-negative size at a price in [0, 1]. */
  predicate Resting(level: OrderLevel)
  {
    level.size >= 0.0 && 0.0 <= level.price <= 1.0
  }

  /** A resting level is worth between 0 and its size. */
  lemma LevelValueBounded(level: OrderLevel)
    requires Resting(level)
    ensures 0.0 <= LevelValue(level) <= level.size
  {
    ProductBounded(level.size, level.price);
  }

  lemma ProductBounded(size: real, price: real)
    requires size >= 0.0 && 0.0 <= price <= 1.0
    ensures 0.0 <= size * price <= size
  {
    assert size * (1.0 - price) >= 0.0;
  }
}
