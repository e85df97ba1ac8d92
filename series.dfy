/** `fetchStockData` (services/stockData.ts): the provider's parallel candle
    columns are normalised into a dense series, annotated with the two moving
    averages and the anchored VWAP, and paired with metadata carrying the best
    available current price. The network requests themselves are inputs: the
    chart answer and the live quote arrive as values. */
module Series {
  import opened Seqs
  import opened Text
  import opened StockTypes
  import opened Symbols
  import opened Indicators
  import opened Quotes

  /** `result.indicators.quote[0]`: one column per field, each entry possibly
      null; a column may also be shorter than the timestamp list. */
  datatype QuoteColumns = QuoteColumns(
    open: seq<Option<real>>,
    high: seq<Option<real>>,
    low: seq<Option<real>>,
    close: seq<Option<real>>,
    volume: seq<Option<real>>)

  /** `result.meta`. */
  datatype ChartMeta = ChartMeta(
    symbol: Option<string>,
    shortName: Option<string>,
    longName: Option<string>,
    currency: Option<string>,
    fullExchangeName: Option<string>,
    regularMarketPrice: Option<real>)

  /** `chart.result[0]`; the timestamps and the quote columns may be missing. */
  datatype ChartResult = ChartResult(
    meta: ChartMeta,
    timestamps: Option<seq<int>>,
    quote: Option<QuoteColumns>)

  /** The answer to the chart request: the request itself threw (every proxy
      failed) with a message, or it answered without a `result[0]`, or it
      answered with one. */
  datatype ChartAnswer = RequestFailed(error: string) | NoChart | Chart(result: ChartResult)

  /** The message the catch-all handler rethrows: the caught error's own
      message, or a generic one when that is empty. */
  function RethrownMessage(error: string): (m: string)
    ensures error != "" ==> m == error
    ensures m != ""
  {
    if error != "" then error else "Failed to fetch stock data"
  }

  /** A fetch either succeeds or fails with the message of the thrown error. */
  datatype Outcome = Success(value: StockFetchResult) | Failure(message: string)

  /** `column[i]`, which is undefined past the end of the column. */
  function At(column: seq<Option<real>>, i: nat): (r: Option<real>)
    ensures i >= |column| ==> r.None?
    ensures i < |column| ==> r == column[i]
  {
    if i < |column| then column[i] else None
  }

  /** `column[i] ?? 0`. */
  function OrZero(p: Option<real>): real {
    if p.Some? then p.value else 0.0
  }

  /** The candle built from row `i`, whose close is present: missing open,
      high, low and volume default to zero; the indicator fields start empty. */
  function CandleAt(timestamps: seq<int>, cols: QuoteColumns, i: nat, intraday: bool): (c: Candle)
    requires i < |timestamps| && At(cols.close, i).Some?
    ensures c.close == At(cols.close, i).value
    ensures c.instantMillis == timestamps[i] * 1000 && c.date == DateLabel(timestamps[i], intraday)
    ensures c.ma50.None? && c.ma200.None? && c.vwap.None?
    ensures At(cols.open, i).None? ==> c.open == 0.0
    ensures At(cols.open, i).Some? ==> c.open == At(cols.open, i).value
    ensures At(cols.high, i).None? ==> c.high == 0.0
    ensures At(cols.high, i).Some? ==> c.high == At(cols.high, i).value
    ensures At(cols.low, i).None? ==> c.low == 0.0
    ensures At(cols.low, i).Some? ==> c.low == At(cols.low, i).value
    ensures At(cols.volume, i).None? ==> c.volume == 0.0
    ensures At(cols.volume, i).Some? ==> c.volume == At(cols.volume, i).value
  {
    Candle(
      DateLabel(timestamps[i], intraday),
      OrZero(At(cols.open, i)),
      OrZero(At(cols.high, i)),
      OrZero(At(cols.low, i)),
      OrZero(At(cols.close, i)),
      OrZero(At(cols.volume, i)),
      None, None, None,
      timestamps[i] * 1000)
  }

  /** The rows below `n` whose close is present, in order. */
  function KeptRows(timestamps: seq<int>, cols: QuoteColumns, n: nat): (rows: seq<nat>)
    requires n <= |timestamps|
    ensures forall k :: 0 <= k < |rows| ==> rows[k] < n && At(cols.close, rows[k]).Some?
    ensures forall k, l :: 0 <= k < l < |rows| ==> rows[k] < rows[l]
    ensures |rows| <= n
  {
    if n == 0 then []
    else
      var prev := KeptRows(timestamps, cols, n - 1);
      if At(cols.close, n - 1).Some? then prev + [n - 1] else prev
  }

  /** The series after the first `n` rows of the normaliser loop. */
  function NormalizedUpTo(timestamps: seq<int>, cols: QuoteColumns, intraday: bool, n: nat): (s: seq<Candle>)
    requires n <= |timestamps|
    ensures |s| == |KeptRows(timestamps, cols, n)| && |s| <= n
  {
    if n == 0 then []
    else
      var prev := NormalizedUpTo(timestamps, cols, intraday, n - 1);
      if At(cols.close, n - 1).Some? then prev + [CandleAt(timestamps, cols, n - 1, intraday)] else prev
  }

  /** The normaliser loop: one candle per timestamp whose close is present,
      appended in timestamp order; rows with a missing close are skipped. */
  method NormalizeCandles(timestamps: seq<int>, cols: QuoteColumns, intraday: bool) returns (data: seq<Candle>)
    ensures data == NormalizedUpTo(timestamps, cols, intraday, |timestamps|)
  {
    data := [];
    var i := 0;
    while i < |timestamps|
      invariant 0 <= i <= |timestamps|
      invariant data == NormalizedUpTo(timestamps, cols, intraday, i)
    {
      var close := At(cols.close, i);
      if close.None? {
        i := i + 1;
        continue;
      }
      var candle := Candle(
        DateLabel(timestamps[i], intraday),
        OrZero(At(cols.open, i)),
        OrZero(At(cols.high, i)),
        OrZero(At(cols.low, i)),
        OrZero(close),
        OrZero(At(cols.volume, i)),
        None, None, None,
        timestamps[i] * 1000);
      assert candle == CandleAt(timestamps, cols, i, intraday);
      data := data + [candle];
      i := i + 1;
    }
  }

  /** Candle `k` of the normalised series is built from the `k`-th kept row:
      the series is the rows with a close, in their original order, with
      nothing invented. */
  lemma {:induction false} NormalizedIsKeptRows(timestamps: seq<int>, cols: QuoteColumns, intraday: bool, n: nat)
    requires n <= |timestamps|
    ensures forall k :: 0 <= k < |KeptRows(timestamps, cols, n)| ==>
      NormalizedUpTo(timestamps, cols, intraday, n)[k]
        == CandleAt(timestamps, cols, KeptRows(timestamps, cols, n)[k], intraday)
  {
    if n > 0 {
      NormalizedIsKeptRows(timestamps, cols, intraday, n - 1);
      var prevRows := KeptRows(timestamps, cols, n - 1);
      var prevSeries := NormalizedUpTo(timestamps, cols, intraday, n - 1);
      var rows := KeptRows(timestamps, cols, n);
      var series := NormalizedUpTo(timestamps, cols, intraday, n);
      if At(cols.close, n - 1).Some? {
        assert rows == prevRows + [n - 1];
        assert series == prevSeries + [CandleAt(timestamps, cols, n - 1, intraday)];
        forall k | 0 <= k < |rows| ensures series[k] == CandleAt(timestamps, cols, rows[k], intraday) {
          if k < |prevRows| {
            assert series[k] == prevSeries[k] && rows[k] == prevRows[k];
          }
        }
      } else {
        assert rows == prevRows && series == prevSeries;
      }
    }
  }

  /** Every row below `n` whose close is present is kept. */
  lemma {:induction false} KeptRowsComplete(timestamps: seq<int>, cols: QuoteColumns, n: nat)
    requires n <= |timestamps|
    ensures forall i :: 0 <= i < n && At(cols.close, i).Some? ==> i in KeptRows(timestamps, cols, n)
  {
    if n > 0 {
      KeptRowsComplete(timestamps, cols, n - 1);
      var prevRows := KeptRows(timestamps, cols, n - 1);
      var rows := KeptRows(timestamps, cols, n);
      if At(cols.close, n - 1).Some? {
        assert rows == prevRows + [n - 1];
        forall i | 0 <= i < n && At(cols.close, i).Some? ensures i in rows {
          if i < n - 1 {
            assert i in prevRows;
          } else {
            assert rows[|rows| - 1] == i;
          }
        }
      } else {
        assert rows == prevRows;
      }
    }
  }

  /** The series has one candle per row with a close: five rows of which the
      third has a null close give four candles, the rows 0, 1, 3 and 4. */
  lemma NormalizerDropsMissingClose(timestamps: seq<int>, cols: QuoteColumns, intraday: bool)
    requires |timestamps| == 5 && |cols.close| == 5
    requires cols.close[2].None?
    requires forall i :: 0 <= i < 5 && i != 2 ==> cols.close[i].Some?
    ensures KeptRows(timestamps, cols, 5) == [0, 1, 3, 4]
    ensures |NormalizedUpTo(timestamps, cols, intraday, 5)| == 4
  {
    assert KeptRows(timestamps, cols, 1) == [0] by { assert At(cols.close, 0).Some?; }
    assert KeptRows(timestamps, cols, 2) == [0, 1] by { assert At(cols.close, 1).Some?; }
    assert KeptRows(timestamps, cols, 3) == [0, 1] by { assert At(cols.close, 2).None?; }
    assert KeptRows(timestamps, cols, 4) == [0, 1, 3] by { assert At(cols.close, 3).Some?; }
    assert KeptRows(timestamps, cols, 5) == [0, 1, 3, 4] by { assert At(cols.close, 4).Some?; }
  }

  /** Candles keep the order of their timestamps: when the provider's
      timestamps increase, so do the candles' instants. */
  lemma NormalizedIsOrdered(timestamps: seq<int>, cols: QuoteColumns, intraday: bool)
    requires forall i, j :: 0 <= i < j < |timestamps| ==> timestamps[i] < timestamps[j]
    ensures forall k, l :: 0 <= k < l < |NormalizedUpTo(timestamps, cols, intraday, |timestamps|)| ==>
      NormalizedUpTo(timestamps, cols, intraday, |timestamps|)[k].instantMillis
        < NormalizedUpTo(timestamps, cols, intraday, |timestamps|)[l].instantMillis
  {
    NormalizedIsKeptRows(timestamps, cols, intraday, |timestamps|);
  }

  /** The message of the error thrown when the provider has no chart for the
      formatted symbol, with a hint for the Chinese and European markets. */
  function NotFoundMessage(formatted: string, market: Market): (m: string)
    ensures StartsWith(m, "Symbol '" + formatted + "' not found.")
    ensures market == US ==> m == "Symbol '" + formatted + "' not found."
    ensures market != US ==> |m| > |"Symbol '" + formatted + "' not found."|
  {
    var base := "Symbol '" + formatted + "' not found.";
    match market
    case CN => base + " Try code (e.g. 600519)."
    case EU => base + " Try name (e.g. ASML, SAP)."
    case US => base
  }

  /** `data.length > 0 ? data[data.length - 1].close : meta.regularMarketPrice`. */
  function LastClose(data: seq<Candle>, meta: ChartMeta): (r: Option<real>)
    ensures data != [] ==> r == Some(data[|data| - 1].close)
    ensures data == [] ==> r == meta.regularMarketPrice
  {
    if |data| > 0 then Some(data[|data| - 1].close) else meta.regularMarketPrice
  }

  /** The metadata object of the result: names fall back from long name to
      short name to symbol. */
  function MetadataOf(meta: ChartMeta, price: Option<real>): (m: StockMetadata)
    ensures m.symbol == meta.symbol && m.price == price
    ensures m.currency == meta.currency && m.exchangeName == meta.fullExchangeName
    ensures HasText(m.shortName) <==> HasText(meta.shortName) || HasText(meta.symbol)
    ensures HasText(m.longName) <==> HasText(meta.longName) || HasText(meta.shortName) || HasText(meta.symbol)
    ensures HasText(meta.longName) ==> m.longName == meta.longName
    ensures HasText(meta.shortName) ==> m.shortName == meta.shortName
    ensures !HasText(meta.shortName) ==> m.shortName == meta.symbol
    ensures !HasText(meta.longName) && HasText(meta.shortName) ==> m.longName == meta.shortName
    ensures !HasText(meta.longName) && !HasText(meta.shortName) ==> m.longName == meta.symbol
  {
    StockMetadata(
      meta.symbol,
      OrElse(meta.shortName, meta.symbol),
      OrElse(OrElse(meta.longName, meta.shortName), meta.symbol),
      meta.currency,
      meta.fullExchangeName,
      price)
  }

  /** The annotated series: both moving averages, then the VWAP. */
  function Annotated(s: seq<Candle>): (r: seq<Candle>)
    ensures |r| == |s|
  {
    WithVWAP(WithSMA(WithSMA(s, 50), 200))
  }

  /** What a chart answer yields: the rethrown request error, the not-found
      and malformed-answer errors,
      or the annotated series with its metadata. */
  function ExpectedOutcome(symbol: string, market: Market, interval: Interval,
                           chart: ChartAnswer, quote: Option<Quote>): Outcome
  {
    match chart
    case RequestFailed(error) => Failure(RethrownMessage(error))
    case NoChart => Failure(NotFoundMessage(FormatTicker(symbol, market), market))
    case Chart(result) => ChartOutcome(symbol, interval, result, quote)
  }

  function ChartOutcome(symbol: string, interval: Interval, result: ChartResult, quote: Option<Quote>): Outcome {
    if result.timestamps.None? || result.quote.None? then
      Failure("Invalid data structure received for " + symbol)
    else
      var series := NormalizedUpTo(result.timestamps.value, result.quote.value,
                                   IsIntraday(interval), |result.timestamps.value|);
      Success(StockFetchResult(
        Annotated(series),
        MetadataOf(result.meta, CurrentPrice(LastClose(series, result.meta), quote))))
  }

  /** `fetchStockData`, once both requests have answered: `chart` is the
      chart request's failure, its missing `result[0]` or that result, and
      `quote` is the first live quote (None when the quote request failed or
      returned nothing). Every error thrown inside the handler is rethrown
      with its own message. */
  method FetchStockData(symbol: string, market: Market, interval: Interval,
                        chart: ChartAnswer, quote: Option<Quote>)
    returns (r: Outcome)
    ensures r == ExpectedOutcome(symbol, market, interval, chart, quote)
  {
    var formattedSymbol := FormatTicker(symbol, market);
    if chart.RequestFailed? {
      return Failure(RethrownMessage(chart.error));
    }
    if chart.NoChart? {
      var errorMsg := "Symbol '" + formattedSymbol + "' not found.";
      if market == CN {
        errorMsg := errorMsg + " Try code (e.g. 600519).";
      }
      if market == EU {
        errorMsg := errorMsg + " Try name (e.g. ASML, SAP).";
      }
      return Failure(errorMsg);
    }
    r := ProcessChart(symbol, interval, chart.result, quote);
  }

  /** The part of `fetchStockData` after the chart was found. */
  method ProcessChart(symbol: string, interval: Interval, result: ChartResult, quote: Option<Quote>)
    returns (r: Outcome)
    ensures r == ChartOutcome(symbol, interval, result, quote)
  {
    var meta := result.meta;
    if result.timestamps.None? || result.quote.None? {
      return Failure("Invalid data structure received for " + symbol);
    }
    var timestamps := result.timestamps.value;
    var intraday := 'm' in interval.Name() || 'h' in interval.Name();
    var series := NormalizeCandles(timestamps, result.quote.value, intraday);

    var data := new Candle[|series|](i requires 0 <= i < |series| => series[i]);
    assert data[..] == series;
    CalculateSMA(data, 50);
    CalculateSMA(data, 200);
    CalculateVWAP(data);

    var finalPrice := if |series| > 0 then Some(series[|series| - 1].close) else meta.regularMarketPrice;
    if quote.Some? {
      var q := quote.value;
      if q.marketState == Pre && Truthy(q.preMarketPrice) {
        finalPrice := q.preMarketPrice;
      } else if AfterHours(q.marketState) && Truthy(q.postMarketPrice) {
        finalPrice := q.postMarketPrice;
      } else if Truthy(q.regularMarketPrice) {
        finalPrice := q.regularMarketPrice;
      }
    }
    var stockMetadata := StockMetadata(
      meta.symbol,
      OrElse(meta.shortName, meta.symbol),
      OrElse(OrElse(meta.longName, meta.shortName), meta.symbol),
      meta.currency,
      meta.fullExchangeName,
      finalPrice);
    return Success(StockFetchResult(data[..], stockMetadata));
  }

  /** Annotation only adds the indicator fields: every candle keeps its date,
      prices and volume. */
  lemma AnnotationKeepsCandles(s: seq<Candle>, i: nat)
    requires i < |s|
    ensures Annotated(s)[i].(ma50 := s[i].ma50, ma200 := s[i].ma200, vwap := s[i].vwap) == s[i]
  {
    var a := WithSMA(s, 50);
    var b := WithSMA(a, 200);
    SmaWrites(s, 50, i);
    SmaWrites(a, 200, i);
    VwapWrites(b, i);
  }

  /** In the fetched series, the 50-period average is present exactly from the
      fiftieth candle on and the 200-period average from the two hundredth;
      each is the mean close of the trailing window of the normalised series. */
  lemma AnnotatedMovingAverages(s: seq<Candle>, i: nat)
    requires i < |s|
    requires s[i].ma50.None? && s[i].ma200.None?
    ensures Annotated(s)[i].ma50.Some? <==> i >= 49
    ensures Annotated(s)[i].ma200.Some? <==> i >= 199
    ensures i >= 49 ==> Annotated(s)[i].ma50 == Some(TrailingMean(s, i, 50))
    ensures i >= 199 ==> Annotated(s)[i].ma200 == Some(TrailingMean(s, i, 200))
  {
    var a := WithSMA(s, 50);
    var b := WithSMA(a, 200);
    SmaWrites(s, 50, i);
    SmaWrites(a, 200, i);
    VwapWrites(b, i);
    if i >= 199 {
      SmaKeepsCloses(s, 50, i, 200);
    }
  }

  /** A moving-average pass leaves the closes, and so every later trailing
      mean, as they were. */
  lemma SmaKeepsCloses(s: seq<Candle>, w: int, i: nat, v: nat)
    requires 1 <= v && v - 1 <= i < |s|
    ensures TrailingMean(WithSMA(s, w), i, v) == TrailingMean(s, i, v)
  {
    var a := WithSMA(s, w);
    var x := a[i - v + 1..i + 1];
    var y := s[i - v + 1..i + 1];
    forall k | 0 <= k < |x| ensures x[k].close == y[k].close {
      SmaWrites(s, w, i - v + 1 + k);
    }
    SumClosesOfSameCloses(x, y);
  }

  /** A chart with timestamps and quote columns always yields a series, with
      one candle per row that has a close, whether or not any row has one. */
  lemma FetchedChartSucceeds(symbol: string, interval: Interval, result: ChartResult, quote: Option<Quote>)
    requires result.timestamps.Some? && result.quote.Some?
    ensures ChartOutcome(symbol, interval, result, quote).Success?
    ensures |ChartOutcome(symbol, interval, result, quote).value.data|
      == |KeptRows(result.timestamps.value, result.quote.value, |result.timestamps.value|)|
  {
    var ts := result.timestamps.value;
    NormalizedIsKeptRows(ts, result.quote.value, IsIntraday(interval), |ts|);
  }

  /** The k-th candle of such a chart, stripped of its indicators, carries
      the date, prices and volume of the k-th row that has a close. */
  lemma FetchedSeriesIsNormalized(symbol: string, interval: Interval, result: ChartResult, quote: Option<Quote>, k: nat)
    requires result.timestamps.Some? && result.quote.Some?
    requires k < |KeptRows(result.timestamps.value, result.quote.value, |result.timestamps.value|)|
    ensures ChartOutcome(symbol, interval, result, quote).Success?
    ensures |ChartOutcome(symbol, interval, result, quote).value.data|
      == |KeptRows(result.timestamps.value, result.quote.value, |result.timestamps.value|)|
    ensures ChartOutcome(symbol, interval, result, quote).value.data[k].(ma50 := None, ma200 := None, vwap := None)
      == CandleAt(result.timestamps.value, result.quote.value,
                  KeptRows(result.timestamps.value, result.quote.value, |result.timestamps.value|)[k],
                  IsIntraday(interval))
  {
    var ts := result.timestamps.value;
    var series := NormalizedUpTo(ts, result.quote.value, IsIntraday(interval), |ts|);
    NormalizedIsKeptRows(ts, result.quote.value, IsIntraday(interval), |ts|);
    AnnotationKeepsCandles(series, k);
  }
}
