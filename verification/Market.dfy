/** Normalized candles, the health of their feed, and the checks a candle must pass. */
module Market {
  import opened Common

  datatype Candle = Candle(
    symbol: string, timeframe: string, openTime: int, closeTime: int,
    open: real, high: real, low: real, close: real, volume: real, isClosed: bool)

  /** Engines keep their state for each symbol and timeframe apart. */
  datatype Key = Key(symbol: string, timeframe: string)

  function KeyOf(c: Candle): Key {
    Key(c.symbol, c.timeframe)
  }

  datatype FeedState = Connecting | Connected | Reconnecting | Disconnected | Stale | FeedError

  datatype Feed = Feed(overall: FeedState, symbols: map<string, FeedState>) {
    /** A symbol without its own status has the status of the whole feed. */
    function StateOf(symbol: string): FeedState {
      if symbol in symbols then symbols[symbol] else overall
    }

    predicate Healthy(symbol: string) {
      !StateOf(symbol).Stale? && !StateOf(symbol).Disconnected? && !StateOf(symbol).FeedError?
    }
  }

  /** The prices of a candle are positive and lie between its low and its high. */
  predicate WellFormed(c: Candle) {
    && c.openTime < c.closeTime
    && 0.0 < c.low <= c.open <= c.high
    && c.low <= c.close <= c.high
    && c.volume >= 0.0
  }

  datatype MarketError =
    | UnconfiguredSymbol | UnexpectedTimeframe | CloseNotAfterOpen | PriceNotPositive
    | NegativeVolume | HighBelowLow | HighBelowBody | LowAboveBody

  /** The first check that a candle fails, in the order the checks are made. */
  function ValidateCandle(c: Candle, symbols: seq<string>, timeframe: string): (e: Option<MarketError>)
    ensures e.None? <==> c.symbol in symbols && c.timeframe == timeframe && WellFormed(c)
  {
    if c.symbol !in symbols then Some(UnconfiguredSymbol)
    else if c.timeframe != timeframe then Some(UnexpectedTimeframe)
    else if c.closeTime <= c.openTime then Some(CloseNotAfterOpen)
    else if c.open <= 0.0 || c.high <= 0.0 || c.low <= 0.0 || c.close <= 0.0 then Some(PriceNotPositive)
    else if c.volume < 0.0 then Some(NegativeVolume)
    else if c.high < c.low then Some(HighBelowLow)
    else if c.high < c.open || c.high < c.close then Some(HighBelowBody)
    else if c.low > c.open || c.low > c.close then Some(LowAboveBody)
    else None
  }
}
