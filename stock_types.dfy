/** The records of the dashboard (types.ts), restricted to the fields the
    modelled operations read or write. */
module StockTypes {
  import opened Seqs

  /** `Market` (types.ts:160). */
  datatype Market = US | CN | EU

  /** `Interval` (types.ts:161), with the literal the source compares against. */
  datatype Interval = M15 | H1 | D1 | Wk1 | Mo1 {
    function Name(): string {
      match this
      case M15 => "15m"
      case H1 => "1h"
      case D1 => "1d"
      case Wk1 => "1wk"
      case Mo1 => "1mo"
    }
  }

  /** The display label of a candle. The source renders the timestamp as an ISO
      date with the time of day for intraday series and as the date alone
      otherwise; the rendering itself is kept abstract. */
  datatype DateLabel = DateLabel(epochSeconds: int, withTime: bool)

  /** `StockDataPoint` (types.ts:2-13); `instantMillis` stands for
      `originalDateObj`. */
  datatype Candle = Candle(
    date: DateLabel,
    open: real,
    high: real,
    low: real,
    close: real,
    volume: real,
    ma50: Option<real>,
    ma200: Option<real>,
    vwap: Option<real>,
    instantMillis: int)

  datatype Direction = Long | Short | Neutral

  datatype BilingualText = BilingualText(en: string, cn: string)

  /** `HistoryItem` (types.ts:32-38). */
  datatype HistoryItem = HistoryItem(
    symbol: string, price: real, score: real, direction: Direction, timestamp: int)

  /** `WatchlistItem.lastAnalysis` (types.ts:49-61). */
  datatype AnalysisSnapshot = AnalysisSnapshot(
    score: real,
    direction: Direction,
    recommendation: BilingualText,
    target: BilingualText,
    stopLoss: string,
    entryZone: string,
    timestamp: int,
    phase: string,
    action: Option<string>,
    managementAdvice: Option<BilingualText>)

  /** `WatchlistItem` (types.ts:40-62). */
  datatype WatchlistItem = WatchlistItem(
    id: string,
    symbol: string,
    market: Market,
    costBasis: real,
    addedAt: int,
    currency: Option<string>,
    currentPrice: Option<real>,
    isLoading: Option<bool>,
    lastAnalysis: Option<AnalysisSnapshot>)

  /** `PositionManagement` (types.ts:102-105); the action is kept as text because
      the badge colouring works on arbitrary text. */
  datatype PositionManagement = PositionManagement(action: string, reasoning: BilingualText)

  /** The parts of an `AnalysisResult` (types.ts:135-144) that the watchlist and
      history updates copy. */
  datatype AnalysisResult = AnalysisResult(
    score: real,
    direction: Direction,
    recommendation: BilingualText,
    priceTargets: BilingualText,
    stopLoss: string,
    entryZone: string,
    positionManagement: Option<PositionManagement>,
    currentPhase: string)

  /** `StockMetadata` (types.ts:15-22). Each field is copied from the
      provider's chart metadata, which may lack any of them. */
  datatype StockMetadata = StockMetadata(
    symbol: Option<string>,
    shortName: Option<string>,
    longName: Option<string>,
    currency: Option<string>,
    exchangeName: Option<string>,
    price: Option<real>)

  /** `StockFetchResult` (types.ts:64-67). */
  datatype StockFetchResult = StockFetchResult(data: seq<Candle>, meta: StockMetadata)

  /** `SearchResult` (types.ts:24-30); exchange and type may be absent in the
      provider's answer and are copied as they are. */
  datatype SearchResult = SearchResult(
    symbol: string,
    shortname: string,
    longname: string,
    exchange: Option<string>,
    typeDisp: Option<string>)
}
