/** The records the exchange's API hands to the trading script, as typed values,
    and the exchange client reduced to the answers it gives. */
module Exchange {
  import opened Wrappers

  /** The continuation cursor the listing service returns on its last page. */
  const EndCursor: string := "LTE="

  /** One outcome token of a market; its id is what prices and books are asked for. */
  datatype Token = Token(tokenId: string)

  /** A market as listed by the sampling-markets endpoint. The start and end
      dates are only printed by the script and are not part of the model. */
  datatype Market = Market(
    conditionId: string,
    tokens: seq<Token>,
    minimumOrderSize: real,
    active: bool)

  /** One page of the paginated market listing. */
  datatype Page = Page(data: seq<Market>, nextCursor: string)

  /** One resting level of an order book. */
  datatype OrderLevel = OrderLevel(size: real, price: real)

  datatype OrderBook = OrderBook(bids: seq<OrderLevel>, asks: seq<OrderLevel>)

  /** What the order-book endpoint answers: a book, or an API exception with
      its HTTP status code. */
  datatype BookResponse = Book(book: OrderBook) | ApiError(statusCode: int)

  /** The HTTP status of "no order book exists for this token". */
  const NotFound: int := 404

  /** The exchange client, seen only through its answers. `buyPrice` and
      `sellPrice` are the quotes for the two sides of a token (None when the
      quote is missing or its request failed); `orderBook` is the book
      endpoint. */
  datatype Client = Client(
    buyPrice: string -> Option<real>,
    sellPrice: string -> Option<real>,
    orderBook: string -> BookResponse)
}
