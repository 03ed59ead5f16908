/** The values the dashboard exchanges with the market-data API: the currency and
    sort-order selectors and the records a fetch returns. */
module Coins {
  import opened Wrappers

  /** The display currency (E_CURRENCY); its value is sent verbatim as `vs_currency`. */
  datatype Currency = USD | EUR

  function CurrencyCode(c: Currency): (s: string)
    ensures CurrencyOf(s) == Some(c)
    ensures '&' !in s && '=' !in s && '/' !in s
  {
    match c
    case USD => "usd"
    case EUR => "eur"
  }

  function CurrencyOf(s: string): Option<Currency> {
    if s == "usd" then Some(USD) else if s == "eur" then Some(EUR) else None
  }

  /** The table's sort order (E_ORDER); its value is sent verbatim as `order`. */
  datatype Order = MarketCapDesc | MarketCapAsc

  function OrderCode(o: Order): (s: string)
    ensures OrderOf(s) == Some(o)
    ensures '&' !in s && '=' !in s
  {
    match o
    case MarketCapDesc => "market_cap_desc"
    case MarketCapAsc => "market_cap_asc"
  }

  function OrderOf(s: string): Option<Order> {
    if s == "market_cap_desc" then Some(MarketCapDesc)
    else if s == "market_cap_asc" then Some(MarketCapAsc)
    else None
  }

  /** One row of the market list (ICoinItem). Prices, supplies and volumes are passed
      through untouched; the 24h change and the total supply may be null. */
  datatype Coin = Coin(
    id: string,
    name: string,
    image: string,
    currentPrice: real,
    priceChange24h: Option<real>,
    circulatingSupply: real,
    totalSupply: Option<real>,
    totalVolume: real)

  /** One `[timestamp, price]` pair of a price history; the timestamp is in milliseconds. */
  datatype Sample = Sample(timestamp: int, price: real)

  /** The body of the market-chart endpoint (ICoinPrice): only `prices` is read. */
  datatype PriceHistory = PriceHistory(prices: seq<Sample>)
}
