/** The records the trading core reads from and writes to the exchange, reduced
    to the fields the core uses. Decimal fields arrive as text on the wire;
    here they are already-parsed decimals. */
module Api {
  import opened Common
  import opened Decimals

  /** A snapshot of an order as the exchange reports it. `status` and
      `doneReason` are nullable strings (`"pending"`, `"open"`, `"done"`;
      `"filled"`, `"canceled"`). */
  datatype Order = Order(
    id: string,
    productId: string,
    status: Option<string>,
    doneReason: Option<string>,
    filledSize: Option<Decimal>)

  /** A tradable instrument: only the scales of its two increments matter. */
  datatype Product = Product(
    id: string,
    quoteIncrement: Decimal,
    baseIncrement: Decimal,
    quoteCurrency: string)

  datatype Account = Account(currency: string, balance: Decimal)

  /** Per-instrument configuration: the cap on outstanding orders, the buy
      funds, the fee rate, the fraction of the bought size to sell and the
      name of the strategy. */
  datatype PositionConfig = PositionConfig(
    id: string,
    max: int,
    funds: Decimal,
    fee: Decimal,
    sell: Decimal,
    strategy: string)

  /** An order request, field by field as the core fills a fresh request
      object; a field the core never sets stays `None`. */
  datatype WriteOrder = WriteOrder(
    productId: string,
    side: string,
    orderType: Option<string>,
    funds: Option<Decimal>,
    size: Option<Decimal>,
    price: Option<Decimal>,
    clientId: string)

  /** The latest price of an instrument with its 24-hour statistics. */
  datatype PriceTick = PriceTick(
    price: Decimal,
    productId: string,
    time: string,
    twentyFourHourOpen: Decimal,
    twentyFourHourVolume: Decimal,
    twentyFourHourHigh: Decimal,
    twentyFourHourLow: Decimal)
}
