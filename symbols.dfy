/** Ticker and market rules of services/stockData.ts: the market-aware ticker
    formatter, the interval-to-history-range table, the intraday test used for
    date labels, and the market filter applied to symbol-search results. */
module Symbols {
  import opened Seqs
  import opened Text
  import opened StockTypes

  // ---------------------------------------------------------------------------
  // formatTickerForMarket

  /** The ticker as the user typed it, trimmed and upper-cased. */
  function Clean(ticker: string): (r: string)
    ensures IsTrimmed(r) && ToUpper(r) == r
  {
    UpperOfUpper(Trim(ticker));
    ToUpper(Trim(ticker))
  }

  /** The exchange-qualified ticker the quote provider expects. A ticker that
      already has a dot, and every US or EU ticker, is only cleaned; a Chinese
      A-share code gets the suffix of its exchange, chosen by its first digit. */
  function FormatTicker(ticker: string, market: Market): (r: string)
    ensures StartsWith(r, Clean(ticker))
    ensures r == Clean(ticker) <==> ('.' in Clean(ticker) || market != CN)
    ensures market == CN ==> '.' in r
  {
    QualifyCleaned(Clean(ticker), market)
  }

  /** The market rules of `formatTickerForMarket`, applied to a cleaned ticker. */
  function QualifyCleaned(c: string, market: Market): (r: string)
    ensures StartsWith(r, c)
    ensures r == c <==> ('.' in c || market != CN)
    ensures market == CN ==> '.' in r
  {
    if '.' in c then c
    else match market
      case US => c
      case EU => c
      case CN =>
        if StartsWith(c, "6") then c + ".SS"
        else if StartsWith(c, "0") || StartsWith(c, "3") then c + ".SZ"
        else if StartsWith(c, "4") || StartsWith(c, "8") then c + ".BJ"
        else c + ".SS"
  }

  /** `formatTickerForMarket(s, marketMap[s])`: a symbol missing from the map
      gets an undefined market, which falls through every market test. */
  function FormatFor(symbol: string, marketMap: map<string, Market>): (r: string)
    ensures symbol !in marketMap ==> r == Clean(symbol)
    ensures symbol in marketMap ==> r == FormatTicker(symbol, marketMap[symbol])
  {
    if symbol in marketMap then FormatTicker(symbol, marketMap[symbol]) else Clean(symbol)
  }

  lemma StartsWithChar(s: string, ch: char)
    ensures StartsWith(s, [ch]) <==> s != [] && s[0] == ch
  {
    if s != [] && s[0] == ch {
      assert s[..1] == [ch];
    }
  }

  /** The A-share suffix table, stated on the first character of the cleaned
      code: 6 (and anything unlisted) is Shanghai, 0 and 3 Shenzhen, 4 and 8
      Beijing. */
  lemma CnSuffixByFirstDigit(ticker: string)
    requires '.' !in Clean(ticker)
    ensures var c, r := Clean(ticker), FormatTicker(ticker, CN);
      && (c != [] && (c[0] == '0' || c[0] == '3') ==> r == c + ".SZ")
      && (c != [] && (c[0] == '4' || c[0] == '8') ==> r == c + ".BJ")
      && (c == [] || c[0] !in {'0', '3', '4', '8'} ==> r == c + ".SS")
  {
    CnSuffixOfCleaned(Clean(ticker));
  }

  lemma CnSuffixOfCleaned(c: string)
    requires '.' !in c
    ensures var r := QualifyCleaned(c, CN);
      && (c != [] && (c[0] == '0' || c[0] == '3') ==> r == c + ".SZ")
      && (c != [] && (c[0] == '4' || c[0] == '8') ==> r == c + ".BJ")
      && (c == [] || c[0] !in {'0', '3', '4', '8'} ==> r == c + ".SS")
  {
    StartsWithChar(c, '6');
    StartsWithChar(c, '0');
    StartsWithChar(c, '3');
    StartsWithChar(c, '4');
    StartsWithChar(c, '8');
  }

  lemma CleanOfTrimmedUpper(s: string)
    requires IsTrimmed(s) && ToUpper(s) == s
    ensures Clean(s) == s
  {
    TrimOfTrimmed(s);
  }

  /** Appending a clean, non-empty suffix to a clean ticker gives a clean ticker. */
  lemma AppendKeepsClean(c: string, sfx: string)
    requires IsTrimmed(c) && ToUpper(c) == c
    requires IsTrimmed(sfx) && ToUpper(sfx) == sfx && sfx != []
    ensures IsTrimmed(c + sfx) && ToUpper(c + sfx) == c + sfx
  {
    UpperOfConcat(c, sfx);
    var r := c + sfx;
    assert r[|r| - 1] == sfx[|sfx| - 1];
    if c != [] { assert r[0] == c[0]; } else { assert r == sfx; }
  }

  lemma ExchangeSuffixesAreClean()
    ensures IsTrimmed(".SS") && ToUpper(".SS") == ".SS"
    ensures IsTrimmed(".SZ") && ToUpper(".SZ") == ".SZ"
    ensures IsTrimmed(".BJ") && ToUpper(".BJ") == ".BJ"
  {
    assert ToUpper(".SS") == [UpperChar('.'), UpperChar('S'), UpperChar('S')];
    assert ToUpper(".SZ") == [UpperChar('.'), UpperChar('S'), UpperChar('Z')];
    assert ToUpper(".BJ") == [UpperChar('.'), UpperChar('B'), UpperChar('J')];
  }

  /** Qualifying a clean ticker gives a clean ticker. */
  lemma QualifyKeepsClean(c: string, market: Market)
    requires IsTrimmed(c) && ToUpper(c) == c
    ensures IsTrimmed(QualifyCleaned(c, market)) && ToUpper(QualifyCleaned(c, market)) == QualifyCleaned(c, market)
  {
    ExchangeSuffixesAreClean();
    AppendKeepsClean(c, ".SS");
    AppendKeepsClean(c, ".SZ");
    AppendKeepsClean(c, ".BJ");
  }

  /** Formatting an already formatted ticker changes nothing: every result is
      clean, and every result for CN contains a dot. */
  lemma {:induction false} FormatTickerIdempotent(ticker: string, market: Market)
    ensures FormatTicker(FormatTicker(ticker, market), market) == FormatTicker(ticker, market)
  {
    var r := FormatTicker(ticker, market);
    assert Clean(r) == r by {
      QualifyKeepsClean(Clean(ticker), market);
      CleanOfTrimmedUpper(r);
    }
    FormatOfFormatted(r, market);
  }

  /** A clean ticker that needs no suffix is its own formatted form. */
  lemma FormatOfFormatted(r: string, market: Market)
    requires Clean(r) == r && (market == CN ==> '.' in r)
    ensures FormatTicker(r, market) == r
  {
    QualifyOfQualified(r, market);
  }

  /** A ticker that already has a dot, or any ticker outside CN, is left as it is. */
  lemma QualifyOfQualified(r: string, market: Market)
    requires market == CN ==> '.' in r
    ensures QualifyCleaned(r, market) == r
  {
  }

  // ---------------------------------------------------------------------------
  // Intervals

  /** `interval.includes('m') || interval.includes('h')`: the test that decides
      whether candle labels carry the time of day. */
  predicate IsIntraday(interval: Interval) {
    'm' in interval.Name() || 'h' in interval.Name()
  }

  /** The intraday test holds for 15m and 1h, and also for 1mo, whose name
      contains an `m`; it fails for 1d and 1wk. */
  lemma IntradayIntervals(interval: Interval)
    ensures IsIntraday(interval) <==> interval in {M15, H1, Mo1}
  {
    assert "1d" == ['1', 'd'];
    assert "1wk" == ['1', 'w', 'k'];
  }

  /** `getRangeForInterval`: how much history is requested for each candle size. */
  function RangeFor(interval: Interval): (r: string)
    ensures r in RangeDays
  {
    match interval
    case M15 => "60d"
    case H1 => "730d"
    case D1 => "2y"
    case Wk1 => "5y"
    case Mo1 => "10y"
  }

  /** The length in days of each range literal the provider understands. */
  const RangeDays: map<string, nat> :=
    map["60d" := 60, "730d" := 730, "2y" := 730, "5y" := 1825, "10y" := 3650]

  /** Candle size in minutes (a month counted as 30 days). */
  function Minutes(interval: Interval): nat {
    match interval
    case M15 => 15
    case H1 => 60
    case D1 => 1440
    case Wk1 => 10080
    case Mo1 => 43200
  }

  /** A coarser candle never gets a shorter history, and the five intervals get
      five different range literals. */
  lemma RangeGrowsWithInterval(a: Interval, b: Interval)
    ensures Minutes(a) <= Minutes(b) ==> RangeDays[RangeFor(a)] <= RangeDays[RangeFor(b)]
    ensures a != b ==> RangeFor(a) != RangeFor(b)
  {
  }

  // ---------------------------------------------------------------------------
  // searchSymbols

  /** One entry of the provider's search answer; every field may be missing. */
  datatype SearchQuote = SearchQuote(
    symbol: Option<string>,
    shortname: Option<string>,
    longname: Option<string>,
    exchange: Option<string>,
    typeDisp: Option<string>)

  const EuSuffixes: seq<string> :=
    [".PA", ".DE", ".L", ".AS", ".MI", ".MC", ".SW", ".ST", ".OL", ".CO", ".HE", ".LS", ".BR", ".VI", ".IR"]

  const EuExchanges: seq<string> :=
    ["PAR", "GER", "LSE", "AMS", "MIL", "MAD", "SWX", "STO", "OSL", "CPH", "HEL", "VIE", "LIS", "BRU", "ISE"]

  /** JavaScript truthiness of an optional string: present and non-empty. */
  predicate HasText(s: Option<string>) {
    s.Some? && s.value != ""
  }

  /** `a || b` on optional strings. */
  function OrElse(a: Option<string>, b: Option<string>): (r: Option<string>)
    ensures HasText(r) <==> HasText(a) || HasText(b)
    ensures HasText(a) ==> r == a
    ensures !HasText(a) ==> r == b
  {
    if HasText(a) then a else b
  }

  predicate EndsWithAny(s: string, suffixes: seq<string>) {
    exists i :: 0 <= i < |suffixes| && EndsWith(s, suffixes[i])
  }

  /** The market filter of `searchSymbols`. */
  predicate KeepSearchQuote(q: SearchQuote, market: Market) {
    if !HasText(q.symbol) then false
    else
      var s := q.symbol.value;
      match market
      case EU => (HasText(q.exchange) && q.exchange.value in EuExchanges) || EndsWithAny(s, EuSuffixes)
      case CN => EndsWith(s, ".SS") || EndsWith(s, ".SZ") || q.exchange == Some("SHH") || q.exchange == Some("SHZ")
      case US => !('.' in s && !EndsWith(s, ".K"))
  }

  /** The filter as the callback handed to `filter`. */
  function MarketFilter(market: Market): SearchQuote -> bool {
    q => KeepSearchQuote(q, market)
  }

  /** The result record built from a kept search entry; names fall back on
      each other and finally on the symbol. */
  function ToSearchResult(q: SearchQuote): (r: SearchResult)
    ensures HasText(q.symbol) ==> r.symbol == q.symbol.value && r.shortname != "" && r.longname != ""
    ensures r.exchange == q.exchange && r.typeDisp == q.typeDisp
    ensures HasText(q.shortname) ==> r.shortname == q.shortname.value
    ensures !HasText(q.shortname) && HasText(q.longname) ==> r.shortname == q.longname.value
    ensures !HasText(q.shortname) && !HasText(q.longname) && HasText(q.symbol) ==> r.shortname == q.symbol.value
    ensures HasText(q.longname) ==> r.longname == q.longname.value
    ensures !HasText(q.longname) && HasText(q.shortname) ==> r.longname == q.shortname.value
    ensures !HasText(q.longname) && !HasText(q.shortname) && HasText(q.symbol) ==> r.longname == q.symbol.value
  {
    SearchResult(
      q.symbol.GetOr(""),
      OrElse(OrElse(q.shortname, q.longname), q.symbol).GetOr(""),
      OrElse(OrElse(q.longname, q.shortname), q.symbol).GetOr(""),
      q.exchange,
      q.typeDisp)
  }

  /** Every entry the market filter keeps is one of the provider's entries and
      passes the filter. */
  lemma KeptAreSearchable(quotes: seq<SearchQuote>, market: Market)
    ensures forall i :: 0 <= i < |Filter(quotes, MarketFilter(market))| ==>
      Filter(quotes, MarketFilter(market))[i] in quotes
      && KeepSearchQuote(Filter(quotes, MarketFilter(market))[i], market)
  {
    var keep := MarketFilter(market);
    var kept := Filter(quotes, keep);
    forall i | 0 <= i < |kept| ensures kept[i] in quotes && KeepSearchQuote(kept[i], market) {
      FilterMembership(quotes, keep, kept[i]);
    }
  }

  /** `searchSymbols`: a query shorter than two characters and a failed request
      both give no results; otherwise the entries kept by the market filter, in
      the provider's order. `response` is the provider's `quotes` list, or None
      when the request failed. */
  function SearchSymbols(query: string, market: Market, response: Option<seq<SearchQuote>>): (r: seq<SearchResult>)
    ensures Utf16Length(query) < 2 || response.None? ==> r == []
    ensures response.Some? ==> |r| <= |response.value|
  {
    if Utf16Length(query) < 2 then []
    else match response
      case None => []
      case Some(quotes) =>
        var kept := Filter(quotes, MarketFilter(market));
        seq(|kept|, i requires 0 <= i < |kept| => ToSearchResult(kept[i]))
  }

  /** Every search result is built from one of the provider's entries that the
      market filter keeps; so every result has a symbol, a US result has no dot
      unless it ends in `.K`, a Chinese result is a Shanghai or Shenzhen
      listing, and a European result is listed on one of the European
      exchanges or carries a European suffix. */
  lemma SearchResultsMatchMarket(query: string, market: Market, response: Option<seq<SearchQuote>>, r: seq<SearchResult>)
    requires r == SearchSymbols(query, market, response)
    ensures forall i :: 0 <= i < |r| ==>
        && (exists q :: q in response.value && KeepSearchQuote(q, market) && r[i] == ToSearchResult(q))
        && r[i].symbol != ""
        && (market == US ==> '.' !in r[i].symbol || EndsWith(r[i].symbol, ".K"))
        && (market == CN ==> EndsWith(r[i].symbol, ".SS") || EndsWith(r[i].symbol, ".SZ")
                             || r[i].exchange == Some("SHH") || r[i].exchange == Some("SHZ"))
        && (market == EU ==> (HasText(r[i].exchange) && r[i].exchange.value in EuExchanges)
                             || EndsWithAny(r[i].symbol, EuSuffixes))
  {
    if Utf16Length(query) >= 2 && response.Some? {
      var quotes := response.value;
      var kept := Filter(quotes, MarketFilter(market));
      KeptAreSearchable(quotes, market);
      forall i | 0 <= i < |r|
        ensures exists q :: q in response.value && KeepSearchQuote(q, market) && r[i] == ToSearchResult(q)
        ensures r[i].symbol != ""
        ensures market == US ==> '.' !in r[i].symbol || EndsWith(r[i].symbol, ".K")
        ensures market == CN ==> EndsWith(r[i].symbol, ".SS") || EndsWith(r[i].symbol, ".SZ")
                                 || r[i].exchange == Some("SHH") || r[i].exchange == Some("SHZ")
        ensures market == EU ==> (HasText(r[i].exchange) && r[i].exchange.value in EuExchanges)
                                 || EndsWithAny(r[i].symbol, EuSuffixes)
      {
        var q := kept[i];
        assert r[i] == ToSearchResult(q);
        assert q in response.value && KeepSearchQuote(q, market);
        assert r[i].symbol == q.symbol.value && r[i].exchange == q.exchange;
      }
      assert forall i :: 0 <= i < |r| ==> r[i].symbol != "";
      assert forall i :: 0 <= i < |r| ==> (market == US ==> '.' !in r[i].symbol || EndsWith(r[i].symbol, ".K"));
      assert forall i :: 0 <= i < |r| ==>
          (market == CN ==> EndsWith(r[i].symbol, ".SS") || EndsWith(r[i].symbol, ".SZ")
                            || r[i].exchange == Some("SHH") || r[i].exchange == Some("SHZ"));
      assert forall i :: 0 <= i < |r| ==>
          (market == EU ==> (HasText(r[i].exchange) && r[i].exchange.value in EuExchanges)
                            || EndsWithAny(r[i].symbol, EuSuffixes));
    }
  }

  /** The results are exactly the entries the market filter keeps, in the
      provider's order: they are `ToSearchResult` of a subsequence of the
      provider's entries, every one of which passes the filter, and every
      entry that passes the filter is in it as many times as the provider
      sent it. */
  lemma SearchSymbolsKeepsMatches(query: string, market: Market, quotes: seq<SearchQuote>)
    requires Utf16Length(query) >= 2
    ensures exists kept :: IsSubsequence(kept, quotes) && |kept| == |SearchSymbols(query, market, Some(quotes))|
                           && (forall i :: 0 <= i < |kept| ==>
                                 KeepSearchQuote(kept[i], market)
                                 && SearchSymbols(query, market, Some(quotes))[i] == ToSearchResult(kept[i]))
                           && (forall q :: multiset(kept)[q] ==
                                 if KeepSearchQuote(q, market) then multiset(quotes)[q] else 0)
  {
    var keep := MarketFilter(market);
    var kept := Filter(quotes, keep);
    var r := SearchSymbols(query, market, Some(quotes));
    FilterIsSubsequence(quotes, keep);
    assert |kept| == |r|;
    assert forall i :: 0 <= i < |kept| ==> KeepSearchQuote(kept[i], market) && r[i] == ToSearchResult(kept[i]) by {
      FilterAllSatisfy(quotes, keep);
    }
    forall q ensures multiset(kept)[q] == if KeepSearchQuote(q, market) then multiset(quotes)[q] else 0 {
      FilterMultiplicity(quotes, keep, q);
    }
  }

  /** The length guard counts UTF-16 code units: a single character outside
      the Basic Multilingual Plane passes it, a single letter does not. */
  lemma QueryGuardCountsCodeUnits()
    ensures Utf16Length("\U{1F4C8}") == 2 && Utf16Length("A") == 1
  {
  }

  /** Every entry the filter keeps shows up among the results. */
  lemma SearchKeepsEveryMatch(query: string, market: Market, quotes: seq<SearchQuote>, q: SearchQuote)
    requires Utf16Length(query) >= 2 && q in quotes && KeepSearchQuote(q, market)
    ensures ToSearchResult(q) in SearchSymbols(query, market, Some(quotes))
  {
    var kept := Filter(quotes, MarketFilter(market));
    FilterMembership(quotes, MarketFilter(market), q);
    var k :| 0 <= k < |kept| && kept[k] == q;
    assert SearchSymbols(query, market, Some(quotes))[k] == ToSearchResult(q);
  }
}
