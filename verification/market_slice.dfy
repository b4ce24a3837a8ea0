/** The `market` slice of the dashboard store. The clock reading taken on a
    successful fetch is a parameter; toast notifications are left out. */
module MarketSlice {
  import opened Common

  datatype Candle = Candle(timestamp: int, open: real, high: real, low: real, close: real, volume: real)

  datatype Sentiment = Sentiment(bullishPatterns: int, bearishPatterns: int, totalPatterns: int,
                                 sentiment: string, sentimentScore: real, volume24h: real, priceChange24h: real)

  datatype State = State(
    marketData: seq<Candle>,
    symbol: string,
    timeframe: string,
    availableSymbols: seq<string>,
    availableTimeframes: seq<string>,
    loading: bool,
    error: Option<string>,
    lastUpdated: Option<string>,
    marketSentiment: Sentiment)

  const InitialState: State :=
    State([], "BTCUSDT", "1h", [], ["1m", "5m", "15m", "30m", "1h", "4h", "1d"], false, None, None,
          Sentiment(0, 0, 0, "neutral", 0.0, 0.0, 0.0))

  /** `setSymbol`: only the symbol changes. */
  function SetSymbol(s: State, symbol: string): (r: State)
    ensures r.symbol == symbol
    ensures r.(symbol := s.symbol) == s
  {
    s.(symbol := symbol)
  }

  /** `setTimeframe`: only the timeframe changes. */
  function SetTimeframe(s: State, timeframe: string): (r: State)
    ensures r.timeframe == timeframe
    ensures r.(timeframe := s.timeframe) == s
  {
    s.(timeframe := timeframe)
  }

  /** Choosing a symbol and a timeframe touch different fields, so the order does not matter. */
  lemma SetSymbolTimeframeCommute(s: State, symbol: string, timeframe: string)
    ensures SetTimeframe(SetSymbol(s, symbol), timeframe) == SetSymbol(SetTimeframe(s, timeframe), symbol)
  {
  }

  /** `clearMarketData`: only the candles go. */
  function ClearMarketData(s: State): (r: State)
    ensures r.marketData == []
    ensures r.(marketData := s.marketData) == s
  {
    s.(marketData := [])
  }

  /** The pending case of every market request. */
  function Pending(s: State): (r: State)
    ensures r.loading && r.error.None?
    ensures r.(loading := s.loading, error := s.error) == s
  {
    s.(loading := true, error := None)
  }

  /** The rejected case of every market request. */
  function Rejected(s: State, message: string): (r: State)
    ensures !r.loading && r.error == Some(message)
    ensures r.(loading := s.loading, error := s.error) == s
  {
    s.(loading := false, error := Some(message))
  }

  /** A failed request changes nothing but the two flags. */
  lemma PendingThenRejected(s: State, message: string)
    ensures Rejected(Pending(s), message) == s.(loading := false, error := Some(message))
  {
  }

  /** `fetchMarketData.fulfilled` with `payload.data`, stamped with the time of arrival. */
  function FetchMarketDataFulfilled(s: State, data: seq<Candle>, now: string): (r: State)
    ensures !r.loading && r.marketData == data && r.lastUpdated == Some(now)
    ensures r.(loading := s.loading, marketData := s.marketData, lastUpdated := s.lastUpdated) == s
  {
    s.(loading := false, marketData := data, lastUpdated := Some(now))
  }

  /** `fetchAvailableSymbols.fulfilled` with `payload.symbols`. */
  function FetchAvailableSymbolsFulfilled(s: State, symbols: seq<string>): (r: State)
    ensures !r.loading && r.availableSymbols == symbols
    ensures r.(loading := s.loading, availableSymbols := s.availableSymbols) == s
  {
    s.(loading := false, availableSymbols := symbols)
  }

  /** `fetchMarketSentiment.fulfilled`: the payload replaces the sentiment block. */
  function FetchMarketSentimentFulfilled(s: State, m: Sentiment): (r: State)
    ensures !r.loading && r.marketSentiment == m
    ensures r.(loading := s.loading, marketSentiment := s.marketSentiment) == s
  {
    s.(loading := false, marketSentiment := m)
  }
}
