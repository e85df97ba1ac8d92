/** Choosing the price that represents "now" from a live quote
    (services/stockData.ts), for one symbol inside `fetchStockData` and for a
    whole watchlist in `fetchBatchQuotes`, including the reverse mapping from
    the provider's symbols back to the symbols the caller asked for. */
module Quotes {
  import opened Seqs
  import opened StockTypes
  import opened Symbols

  /** The provider's `marketState`; `OtherState` stands for any other value,
      and for an absent one. */
  datatype MarketState = Pre | Regular | Post | Closed | PostPost | OtherState

  /** A live quote; every price may be missing. */
  datatype Quote = Quote(
    symbol: string,
    marketState: MarketState,
    regularMarketPrice: Option<real>,
    preMarketPrice: Option<real>,
    postMarketPrice: Option<real>)

  /** JavaScript truthiness of an optional price: present and not zero. */
  predicate Truthy(p: Option<real>) {
    p.Some? && p.value != 0.0
  }

  /** `['POST', 'CLOSED', 'POSTPOST'].includes(marketState)`. */
  predicate AfterHours(state: MarketState) {
    state == Post || state == Closed || state == PostPost
  }

  /** A truthy pre-market price during PRE: the first override. */
  predicate PreWins(q: Quote) {
    q.marketState == Pre && Truthy(q.preMarketPrice)
  }

  /** A truthy post-market price after hours: the second override. */
  predicate PostWins(q: Quote) {
    AfterHours(q.marketState) && Truthy(q.postMarketPrice)
  }

  /** The single-symbol priority chain of `fetchStockData`: without a quote
      keep the fallback; otherwise a truthy pre-market price during PRE, a
      truthy post-market price after hours, else a truthy regular price, else
      the fallback. */
  function CurrentPrice(fallback: Option<real>, quote: Option<Quote>): (r: Option<real>)
    ensures quote.None? ==> r == fallback
    ensures r == fallback || Truthy(r)
    ensures quote.Some? && PreWins(quote.value) ==> r == quote.value.preMarketPrice
    ensures quote.Some? && PostWins(quote.value) ==> r == quote.value.postMarketPrice
    ensures quote.Some? && !PreWins(quote.value) && !PostWins(quote.value) && Truthy(quote.value.regularMarketPrice) ==>
      r == quote.value.regularMarketPrice
    ensures quote.Some? && !PreWins(quote.value) && !PostWins(quote.value) && !Truthy(quote.value.regularMarketPrice) ==>
      r == fallback
  {
    if quote.None? then fallback
    else
      var q := quote.value;
      if q.marketState == Pre && Truthy(q.preMarketPrice) then q.preMarketPrice
      else if AfterHours(q.marketState) && Truthy(q.postMarketPrice) then q.postMarketPrice
      else if Truthy(q.regularMarketPrice) then q.regularMarketPrice
      else fallback
  }

  /** Which of the four candidate prices decides. */
  datatype PriceSource = PreMarket | PostMarket | RegularMarket | Fallback

  /** The same rule written as a decision table over the market state: each
      source is chosen exactly when it is available and no source before it
      in the priority order is. */
  function SourceFor(q: Quote): (src: PriceSource)
    ensures src == PreMarket <==> PreWins(q)
    ensures src == PostMarket <==> PostWins(q)
    ensures src == RegularMarket <==> !PreWins(q) && !PostWins(q) && Truthy(q.regularMarketPrice)
    ensures src == Fallback <==> !PreWins(q) && !PostWins(q) && !Truthy(q.regularMarketPrice)
  {
    match q.marketState
    case Pre =>
      if Truthy(q.preMarketPrice) then PreMarket
      else if Truthy(q.regularMarketPrice) then RegularMarket
      else Fallback
    case Post | Closed | PostPost =>
      if Truthy(q.postMarketPrice) then PostMarket
      else if Truthy(q.regularMarketPrice) then RegularMarket
      else Fallback
    case Regular | OtherState =>
      if Truthy(q.regularMarketPrice) then RegularMarket else Fallback
  }

  function PriceOf(src: PriceSource, q: Quote, fallback: Option<real>): Option<real> {
    match src
    case PreMarket => q.preMarketPrice
    case PostMarket => q.postMarketPrice
    case RegularMarket => q.regularMarketPrice
    case Fallback => fallback
  }

  /** The cascading conditionals select exactly the price the decision table
      names, so exactly one branch decides. */
  lemma CurrentPriceFollowsTable(fallback: Option<real>, q: Quote)
    ensures CurrentPrice(fallback, Some(q)) == PriceOf(SourceFor(q), q, fallback)
  {
  }

  /** The worked cases: a PRE quote with a pre-market price of 105 beats the
      regular 100 and the fallback 98; a REGULAR quote gives 100; no quote
      gives 98. */
  lemma CurrentPriceExamples(symbol: string)
    ensures CurrentPrice(Some(98.0), Some(Quote(symbol, Pre, Some(100.0), Some(105.0), None))) == Some(105.0)
    ensures CurrentPrice(Some(98.0), Some(Quote(symbol, Regular, Some(100.0), Some(105.0), None))) == Some(100.0)
    ensures CurrentPrice(Some(98.0), None) == Some(98.0)
  {
  }

  /** The per-quote price of `fetchBatchQuotes`: it starts from the regular
      price, with no last-close fallback, and applies the same PRE and after
      hours overrides. */
  function BatchPrice(q: Quote): (r: Option<real>)
    ensures r == q.regularMarketPrice || Truthy(r)
    ensures PreWins(q) ==> r == q.preMarketPrice
    ensures PostWins(q) ==> r == q.postMarketPrice
    ensures !PreWins(q) && !PostWins(q) ==> r == q.regularMarketPrice
  {
    var price := q.regularMarketPrice;
    if q.marketState == Pre && Truthy(q.preMarketPrice) then q.preMarketPrice
    else if AfterHours(q.marketState) && Truthy(q.postMarketPrice) then q.postMarketPrice
    else price
  }

  /** The batch rule is the single-symbol rule with the regular price as its
      own fallback. */
  lemma BatchPriceIsCurrentPrice(q: Quote)
    ensures BatchPrice(q) == CurrentPrice(q.regularMarketPrice, Some(q))
  {
  }

  /** The formatted form of every input symbol, in order. */
  function FormattedSymbols(symbols: seq<string>, marketMap: map<string, Market>): (f: seq<string>)
    ensures |f| == |symbols|
  {
    Map(symbols, (s: string) => FormatFor(s, marketMap))
  }

  lemma FormattedSymbolsAt(symbols: seq<string>, marketMap: map<string, Market>)
    ensures forall i :: 0 <= i < |symbols| ==> FormattedSymbols(symbols, marketMap)[i] == FormatFor(symbols[i], marketMap)
  {
    MapAt(symbols, (s: string) => FormatFor(s, marketMap));
  }

  /** `Array.prototype.find` on the formatted forms, searching from index
      `from`: the first position holding `target`. */
  function FirstIndexOf(xs: seq<string>, target: string, from: nat): (r: Option<nat>)
    requires from <= |xs|
    ensures r.Some? ==> from <= r.value < |xs| && xs[r.value] == target
    ensures r.Some? ==> forall j :: from <= j < r.value ==> xs[j] != target
    ensures r.None? ==> forall j :: from <= j < |xs| ==> xs[j] != target
    decreases |xs| - from
  {
    if from == |xs| then None
    else if xs[from] == target then Some(from)
    else FirstIndexOf(xs, target, from + 1)
  }

  /** The input symbol a quote for `target` is credited to, given the
      formatted form of every input symbol: the first one whose formatted form
      is `target`, provided it is truthy (non-empty). */
  function CreditedSymbol(symbols: seq<string>, formatted: seq<string>, target: string): (r: Option<string>)
    requires |formatted| == |symbols|
    ensures r.Some? ==> r.value in symbols && r.value != ""
  {
    match FirstIndexOf(formatted, target, 0)
    case None => None
    case Some(i) => if symbols[i] != "" then Some(symbols[i]) else None
  }

  /** A quote is credited to the first input symbol whose formatted form is
      the quote's symbol, and to none when that input symbol is empty or there
      is no such input symbol. */
  lemma CreditedSymbolIsFirstMatch(symbols: seq<string>, formatted: seq<string>, target: string)
    requires |formatted| == |symbols|
    ensures CreditedSymbol(symbols, formatted, target).Some? <==>
      exists i :: 0 <= i < |symbols| && formatted[i] == target && symbols[i] != ""
                  && forall j :: 0 <= j < i ==> formatted[j] != target
    ensures CreditedSymbol(symbols, formatted, target).Some? ==>
      exists i :: 0 <= i < |symbols| && symbols[i] == CreditedSymbol(symbols, formatted, target).value
                  && formatted[i] == target
                  && forall j :: 0 <= j < i ==> formatted[j] != target
  {
    var r := FirstIndexOf(formatted, target, 0);
    if r.Some? {
      var i := r.value;
      forall k | 0 <= k < |symbols| && formatted[k] == target && symbols[k] != ""
        && (forall j :: 0 <= j < k ==> formatted[j] != target)
        ensures k == i
      {
      }
    }
  }

  /** The price map after the `forEach` has visited `quotes`: each quote, in
      order, writes its price under the symbol it is credited to. */
  function Credit(symbols: seq<string>, formatted: seq<string>, quotes: seq<Quote>): map<string, Option<real>>
    requires |formatted| == |symbols|
  {
    if quotes == [] then map[]
    else
      var m := Credit(symbols, formatted, quotes[..|quotes| - 1]);
      var q := quotes[|quotes| - 1];
      match CreditedSymbol(symbols, formatted, q.symbol)
      case None => m
      case Some(s) => m[s := BatchPrice(q)]
  }

  /** One more quote updates the map under the symbol it is credited to. */
  lemma CreditAppend(symbols: seq<string>, formatted: seq<string>, quotes: seq<Quote>, q: Quote)
    requires |formatted| == |symbols|
    ensures CreditedSymbol(symbols, formatted, q.symbol).None? ==>
      Credit(symbols, formatted, quotes + [q]) == Credit(symbols, formatted, quotes)
    ensures CreditedSymbol(symbols, formatted, q.symbol).Some? ==>
      Credit(symbols, formatted, quotes + [q])
        == Credit(symbols, formatted, quotes)[CreditedSymbol(symbols, formatted, q.symbol).value := BatchPrice(q)]
  {
    assert (quotes + [q])[..|quotes|] == quotes;
  }

  /** `fetchBatchQuotes`: `response` is the provider's result list, or None when
      the request failed. No symbols, or a failed request, give the empty map. */
  method FetchBatchQuotes(symbols: seq<string>, marketMap: map<string, Market>, response: Option<seq<Quote>>)
    returns (priceMap: map<string, Option<real>>)
    ensures symbols == [] || response.None? ==> priceMap == map[]
    ensures symbols != [] && response.Some? ==>
      priceMap == Credit(symbols, FormattedSymbols(symbols, marketMap), response.value)
  {
    if |symbols| == 0 {
      return map[];
    }
    if response.None? {
      return map[];
    }
    priceMap := CreditQuotes(symbols, FormattedSymbols(symbols, marketMap), response.value);
  }

  /** The `forEach` over the returned quotes: each one's price is written under
      the first input symbol whose formatted form is the quote's symbol. */
  method CreditQuotes(symbols: seq<string>, formatted: seq<string>, results: seq<Quote>)
    returns (priceMap: map<string, Option<real>>)
    requires |formatted| == |symbols|
    ensures priceMap == Credit(symbols, formatted, results)
  {
    priceMap := map[];
    var i := 0;
    while i < |results|
      invariant 0 <= i <= |results|
      invariant priceMap == Credit(symbols, formatted, results[..i])
    {
      var q := results[i];
      var price := q.regularMarketPrice;
      if q.marketState == Pre && Truthy(q.preMarketPrice) {
        price := q.preMarketPrice;
      } else if AfterHours(q.marketState) && Truthy(q.postMarketPrice) {
        price := q.postMarketPrice;
      }
      var original := FirstIndexOf(formatted, q.symbol, 0);
      CreditAppend(symbols, formatted, results[..i], q);
      if original.Some? && symbols[original.value] != "" {
        priceMap := priceMap[symbols[original.value] := price];
      }
      assert results[..i + 1] == results[..i] + [q];
      i := i + 1;
    }
    assert results[..i] == results;
  }

  /** Every key of the price map is an input symbol that some returned quote
      is credited to, and its value is the price of the last such quote. */
  lemma {:induction false} CreditedKeys(symbols: seq<string>, formatted: seq<string>, quotes: seq<Quote>, s: string)
    requires |formatted| == |symbols|
    ensures s in Credit(symbols, formatted, quotes) ==>
      exists j :: 0 <= j < |quotes| && CreditedSymbol(symbols, formatted, quotes[j].symbol) == Some(s)
        && Credit(symbols, formatted, quotes)[s] == BatchPrice(quotes[j])
        && forall k :: j < k < |quotes| ==> CreditedSymbol(symbols, formatted, quotes[k].symbol) != Some(s)
  {
    if quotes != [] {
      var n := |quotes| - 1;
      var init := quotes[..n];
      CreditedKeys(symbols, formatted, init, s);
      if CreditedSymbol(symbols, formatted, quotes[n].symbol) != Some(s) && s in Credit(symbols, formatted, quotes) {
        var j :| 0 <= j < |init| && CreditedSymbol(symbols, formatted, init[j].symbol) == Some(s)
          && Credit(symbols, formatted, init)[s] == BatchPrice(init[j])
          && forall k :: j < k < |init| ==> CreditedSymbol(symbols, formatted, init[k].symbol) != Some(s);
        assert quotes[j] == init[j];
        assert forall k :: j < k < |quotes| ==> CreditedSymbol(symbols, formatted, quotes[k].symbol) != Some(s) by {
          forall k | j < k < |quotes| ensures CreditedSymbol(symbols, formatted, quotes[k].symbol) != Some(s) {
            if k < n { assert quotes[k] == init[k]; }
          }
        }
      }
    }
  }

  /** Every returned quote that is credited to a symbol leaves that symbol in
      the price map. */
  lemma {:induction false} CreditedQuotesAppear(symbols: seq<string>, formatted: seq<string>, quotes: seq<Quote>, j: nat)
    requires |formatted| == |symbols|
    requires j < |quotes| && CreditedSymbol(symbols, formatted, quotes[j].symbol).Some?
    ensures CreditedSymbol(symbols, formatted, quotes[j].symbol).value in Credit(symbols, formatted, quotes)
  {
    var n := |quotes| - 1;
    if j < n {
      assert quotes[..n][j] == quotes[j];
      CreditedQuotesAppear(symbols, formatted, quotes[..n], j);
    }
  }

  /** The keys of the price map are non-empty input symbols, each the first
      input symbol with its formatted form: a symbol that formats like an
      earlier one never receives a price. */
  lemma PriceMapKeysAreFirstInputs(symbols: seq<string>, marketMap: map<string, Market>, quotes: seq<Quote>, s: string)
    requires s in Credit(symbols, FormattedSymbols(symbols, marketMap), quotes)
    ensures s in symbols && s != ""
    ensures exists i :: 0 <= i < |symbols| && symbols[i] == s
                        && forall j :: 0 <= j < i ==> FormatFor(symbols[j], marketMap) != FormatFor(s, marketMap)
  {
    var f := FormattedSymbols(symbols, marketMap);
    CreditedKeys(symbols, f, quotes, s);
    var k :| 0 <= k < |quotes| && CreditedSymbol(symbols, f, quotes[k].symbol) == Some(s);
    CreditedSymbolIsFirstMatch(symbols, f, quotes[k].symbol);
    FormattedSymbolsAt(symbols, marketMap);
  }
}
