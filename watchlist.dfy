/** The dashboard's two tables (App.tsx): the bounded history of analysed
    symbols and the watchlist of held and watched assets. Every operation
    replaces one table with a new list; the lists are fields of `AppState` and
    each method is specified by a function on the old list, whose properties
    are the lemmas below. Clocks, generated ids and parsed numbers arrive as
    parameters. */
module Watchlist {
  import opened Seqs
  import opened StockTypes
  import opened Quotes

  /** The number of entries the history keeps. */
  const HistoryLimit: nat := 50

  // ---------------------------------------------------------------------------
  // History

  function HistorySymbol(h: HistoryItem): string {
    h.symbol
  }

  /** `item => item.symbol !== symbol`. */
  function OtherSymbol(symbol: string): HistoryItem -> bool {
    (h: HistoryItem) => h.symbol != symbol
  }

  /** `[newItem, ...prev.filter(...)].slice(0, 50)`. */
  function HistoryWith(prev: seq<HistoryItem>, item: HistoryItem): (r: seq<HistoryItem>)
    ensures 1 <= |r| <= HistoryLimit && r[0] == item
    ensures |r| == if 1 + |Filter(prev, OtherSymbol(item.symbol))| <= HistoryLimit
                   then 1 + |Filter(prev, OtherSymbol(item.symbol))| else HistoryLimit
  {
    Take([item] + Filter(prev, OtherSymbol(item.symbol)), HistoryLimit)
  }

  /** After an update the new item is first and is the only entry for its
      symbol; the others are the earlier entries for other symbols, in their
      old order, cut to 49 (all of them when there is room). */
  lemma HistoryWithProperties(prev: seq<HistoryItem>, item: HistoryItem)
    ensures forall i :: 1 <= i < |HistoryWith(prev, item)| ==>
      HistoryWith(prev, item)[i].symbol != item.symbol && HistoryWith(prev, item)[i] in prev
    ensures HistoryWith(prev, item)[1..] == Filter(prev, OtherSymbol(item.symbol))[..|HistoryWith(prev, item)| - 1]
    ensures |Filter(prev, OtherSymbol(item.symbol))| < HistoryLimit ==>
      HistoryWith(prev, item)[1..] == Filter(prev, OtherSymbol(item.symbol))
    ensures IsSubsequence(Filter(prev, OtherSymbol(item.symbol)), prev)
  {
    var f := Filter(prev, OtherSymbol(item.symbol));
    var r := HistoryWith(prev, item);
    assert r[1..] == f[..|r| - 1];
    forall i | 1 <= i < |r| ensures r[i].symbol != item.symbol && r[i] in prev {
      assert r[i] == f[i - 1];
      FilterMembership(prev, OtherSymbol(item.symbol), r[i]);
    }
    FilterIsSubsequence(prev, OtherSymbol(item.symbol));
  }

  /** A history without two entries for the same symbol keeps that property. */
  lemma HistoryWithKeepsSymbolsDistinct(prev: seq<HistoryItem>, item: HistoryItem)
    requires DistinctBy(prev, HistorySymbol)
    ensures DistinctBy(HistoryWith(prev, item), HistorySymbol)
  {
    var f := Filter(prev, OtherSymbol(item.symbol));
    var r := HistoryWith(prev, item);
    HistoryWithProperties(prev, item);
    FilterIsSubsequence(prev, OtherSymbol(item.symbol));
    SubsequenceKeepsDistinct(f, prev, HistorySymbol);
    forall i, j | 0 <= i < j < |r| ensures HistorySymbol(r[i]) != HistorySymbol(r[j]) {
      if i > 0 {
        assert r[i] == f[i - 1] && r[j] == f[j - 1];
      }
    }
  }

  // ---------------------------------------------------------------------------
  // Watchlist rows

  function ItemSymbol(w: WatchlistItem): string {
    w.symbol
  }

  /** `watchlist.find(item => item.symbol === symbol)` finds an item. */
  predicate HasSymbol(list: seq<WatchlistItem>, symbol: string) {
    exists i :: 0 <= i < |list| && list[i].symbol == symbol
  }

  /** The `lastAnalysis` record stored with an item. */
  function SnapshotOf(result: AnalysisResult, now: int): AnalysisSnapshot {
    AnalysisSnapshot(
      result.score,
      result.direction,
      result.recommendation,
      result.priceTargets,
      result.stopLoss,
      result.entryZone,
      now,
      result.currentPhase,
      if result.positionManagement.Some? then Some(result.positionManagement.value.action) else None,
      if result.positionManagement.Some? then Some(result.positionManagement.value.reasoning) else None)
  }

  /** The row `addToWatchlist` appends: its current price starts at the cost
      basis, and it carries the loaded analysis only when that analysis is for
      the same symbol. */
  function NewWatchItem(symbol: string, market: Market, costBasis: real, currency: Option<string>,
                        id: string, now: int, analysis: Option<AnalysisResult>, metaSymbol: Option<string>): (w: WatchlistItem)
    ensures w.symbol == symbol && w.market == market && w.costBasis == costBasis && w.currency == currency
    ensures w.currentPrice == Some(costBasis) && w.isLoading.None?
    ensures w.id == id && w.addedAt == now
    ensures w.lastAnalysis.Some? <==> analysis.Some? && metaSymbol == Some(symbol)
    ensures analysis.Some? && metaSymbol == Some(symbol) ==> w.lastAnalysis == Some(SnapshotOf(analysis.value, now))
  {
    var snapshot := if analysis.Some? && metaSymbol == Some(symbol) then Some(SnapshotOf(analysis.value, now)) else None;
    WatchlistItem(id, symbol, market, costBasis, now, currency, Some(costBasis), None, snapshot)
  }

  /** Appending a row for a symbol not yet listed keeps symbols unique. */
  lemma AddKeepsSymbolsDistinct(list: seq<WatchlistItem>, item: WatchlistItem)
    requires DistinctBy(list, ItemSymbol) && !HasSymbol(list, item.symbol)
    ensures DistinctBy(list + [item], ItemSymbol)
  {
    var r := list + [item];
    forall i, j | 0 <= i < j < |r| ensures ItemSymbol(r[i]) != ItemSymbol(r[j]) {
      if j == |list| {
        assert r[i] == list[i];
      } else {
        assert r[i] == list[i] && r[j] == list[j];
      }
    }
  }

  /** `item => item.id !== id`. */
  function OtherId(id: string): WatchlistItem -> bool {
    (w: WatchlistItem) => w.id != id
  }

  /** `watchlist.filter(item => item.id !== id)`. */
  function WithoutId(list: seq<WatchlistItem>, id: string): (r: seq<WatchlistItem>)
    ensures |r| <= |list|
  {
    Filter(list, OtherId(id))
  }

  /** Removal drops exactly the rows with the id and keeps the others in
      their order; an unknown id changes nothing. */
  lemma WithoutIdProperties(list: seq<WatchlistItem>, id: string)
    ensures forall w :: w in WithoutId(list, id) <==> w in list && w.id != id
    ensures IsSubsequence(WithoutId(list, id), list)
    ensures (forall i :: 0 <= i < |list| ==> list[i].id != id) ==> WithoutId(list, id) == list
    ensures DistinctBy(list, ItemSymbol) ==> DistinctBy(WithoutId(list, id), ItemSymbol)
  {
    forall w ensures w in WithoutId(list, id) <==> w in list && w.id != id {
      FilterMembership(list, OtherId(id), w);
    }
    FilterIsSubsequence(list, OtherId(id));
    if forall i :: 0 <= i < |list| ==> list[i].id != id {
      FilterKeepsAll(list, OtherId(id));
    }
    if DistinctBy(list, ItemSymbol) {
      SubsequenceKeepsDistinct(WithoutId(list, id), list, ItemSymbol);
    }
  }

  /** `prev.map(item => item.id === id ? { ...item, costBasis } : item)`. */
  function WithCost(list: seq<WatchlistItem>, id: string, costBasis: real): (r: seq<WatchlistItem>)
    ensures |r| == |list|
  {
    seq(|list|, i requires 0 <= i < |list| => if list[i].id == id then list[i].(costBasis := costBasis) else list[i])
  }

  /** Editing the cost touches only the cost basis, and only of the rows with
      the id. */
  lemma WithCostProperties(list: seq<WatchlistItem>, id: string, costBasis: real)
    ensures forall i :: 0 <= i < |list| ==>
      WithCost(list, id, costBasis)[i].(costBasis := list[i].costBasis) == list[i]
    ensures forall i :: 0 <= i < |list| ==>
      (WithCost(list, id, costBasis)[i].costBasis != list[i].costBasis ==> list[i].id == id)
    ensures forall i :: 0 <= i < |list| && list[i].id == id ==> WithCost(list, id, costBasis)[i].costBasis == costBasis
  {
  }

  /** The price merge of `refreshPrices`: a row whose symbol has a defined
      fresh price takes it as its current price. */
  function WithFreshPrices(list: seq<WatchlistItem>, prices: map<string, Option<real>>): (r: seq<WatchlistItem>)
    ensures |r| == |list|
  {
    seq(|list|, i requires 0 <= i < |list| =>
      if list[i].symbol in prices && prices[list[i].symbol].Some?
      then list[i].(currentPrice := prices[list[i].symbol])
      else list[i])
  }

  /** The merge keeps the rows and their order, changes nothing but the
      current price, replaces it exactly when the symbol has a defined price,
      and an empty price map (the failed-request result) changes nothing. */
  lemma WithFreshPricesProperties(list: seq<WatchlistItem>, prices: map<string, Option<real>>)
    ensures forall i :: 0 <= i < |list| ==>
      WithFreshPrices(list, prices)[i].(currentPrice := list[i].currentPrice) == list[i]
    ensures forall i :: 0 <= i < |list| && list[i].symbol in prices && prices[list[i].symbol].Some? ==>
      WithFreshPrices(list, prices)[i].currentPrice == prices[list[i].symbol]
    ensures forall i :: 0 <= i < |list| && (list[i].symbol !in prices || prices[list[i].symbol].None?) ==>
      WithFreshPrices(list, prices)[i] == list[i]
    ensures prices == map[] ==> WithFreshPrices(list, prices) == list
  {
  }

  /** The analysis update of `updateWatchlistAnalysis`, applied to every row
      of the symbol. */
  function WithAnalysis(list: seq<WatchlistItem>, symbol: string, currentPrice: real,
                        currency: Option<string>, snapshot: AnalysisSnapshot): (r: seq<WatchlistItem>)
    ensures |r| == |list|
  {
    seq(|list|, i requires 0 <= i < |list| =>
      if list[i].symbol == symbol
      then list[i].(currentPrice := Some(currentPrice), currency := currency,
                    isLoading := Some(false), lastAnalysis := Some(snapshot))
      else list[i])
  }

  /** Only the rows of the symbol change, and in them only the price, the
      currency, the loading flag and the stored analysis. */
  lemma WithAnalysisProperties(list: seq<WatchlistItem>, symbol: string, currentPrice: real,
                               currency: Option<string>, snapshot: AnalysisSnapshot)
    ensures forall i :: 0 <= i < |list| && list[i].symbol != symbol ==>
      WithAnalysis(list, symbol, currentPrice, currency, snapshot)[i] == list[i]
    ensures forall i :: 0 <= i < |list| && list[i].symbol == symbol ==>
      var w := WithAnalysis(list, symbol, currentPrice, currency, snapshot)[i];
      w.currentPrice == Some(currentPrice) && w.currency == currency && w.isLoading == Some(false)
      && w.lastAnalysis == Some(snapshot)
      && w.(currentPrice := list[i].currentPrice, currency := list[i].currency,
            isLoading := list[i].isLoading, lastAnalysis := list[i].lastAnalysis) == list[i]
  {
  }

  /** Rewriting fields other than the symbol keeps symbols unique. */
  lemma SameSymbolsKeepDistinct(list: seq<WatchlistItem>, r: seq<WatchlistItem>)
    requires |r| == |list| && DistinctBy(list, ItemSymbol)
    requires forall i :: 0 <= i < |list| ==> r[i].symbol == list[i].symbol
    ensures DistinctBy(r, ItemSymbol)
  {
    forall i, j | 0 <= i < j < |r| ensures ItemSymbol(r[i]) != ItemSymbol(r[j]) {
      assert ItemSymbol(list[i]) != ItemSymbol(list[j]);
    }
  }

  /** The `marketMap` of `refreshPrices`: each row's market under its symbol,
      a later row overriding an earlier one. */
  function MarketMapOf(list: seq<WatchlistItem>): map<string, Market>
  {
    if list == [] then map[]
    else MarketMapOf(list[..|list| - 1])[list[|list| - 1].symbol := list[|list| - 1].market]
  }

  /** The map has an entry for exactly the listed symbols, holding the market
      of the last row with that symbol. */
  lemma {:induction false} MarketMapOfProperties(list: seq<WatchlistItem>, symbol: string)
    ensures symbol in MarketMapOf(list) <==> HasSymbol(list, symbol)
    ensures symbol in MarketMapOf(list) ==>
      exists i :: 0 <= i < |list| && list[i].symbol == symbol && MarketMapOf(list)[symbol] == list[i].market
                  && forall j :: i < j < |list| ==> list[j].symbol != symbol
  {
    if list != [] {
      var n := |list| - 1;
      var init := list[..n];
      MarketMapOfProperties(init, symbol);
      if HasSymbol(init, symbol) {
        var k :| 0 <= k < |init| && init[k].symbol == symbol;
        assert list[k] == init[k];
      }
      if HasSymbol(list, symbol) && list[n].symbol != symbol {
        var k :| 0 <= k < |list| && list[k].symbol == symbol;
        assert init[k] == list[k];
      }
      if symbol in MarketMapOf(list) && list[n].symbol != symbol {
        var i :| 0 <= i < |init| && init[i].symbol == symbol && MarketMapOf(init)[symbol] == init[i].market
                 && forall j :: i < j < |init| ==> init[j].symbol != symbol;
        assert list[i] == init[i];
        assert forall j :: i < j < |list| ==> list[j].symbol != symbol by {
          forall j | i < j < |list| ensures list[j].symbol != symbol {
            if j < n { assert list[j] == init[j]; }
          }
        }
      }
    }
  }

  /** `watchlist.map(w => w.symbol)`. */
  function SymbolsOf(list: seq<WatchlistItem>): (s: seq<string>)
    ensures |s| == |list|
  {
    seq(|list|, i requires 0 <= i < |list| => list[i].symbol)
  }

  /** The price map `fetchBatchQuotes` returns for the watchlist's symbols. */
  function BatchPrices(list: seq<WatchlistItem>, response: Option<seq<Quote>>): map<string, Option<real>> {
    if list == [] || response.None? then map[]
    else Credit(SymbolsOf(list), FormattedSymbols(SymbolsOf(list), MarketMapOf(list)), response.value)
  }

  /** A row whose price changes in a refresh takes the batch price of a
      returned quote credited to its symbol, the last such quote. */
  lemma RefreshedPriceComesFromQuote(list: seq<WatchlistItem>, response: Option<seq<Quote>>, i: nat)
    requires i < |list|
    requires WithFreshPrices(list, BatchPrices(list, response))[i] != list[i]
    ensures list != [] && response.Some?
    ensures exists j :: 0 <= j < |response.value|
                        && CreditedSymbol(SymbolsOf(list), FormattedSymbols(SymbolsOf(list), MarketMapOf(list)),
                                          response.value[j].symbol) == Some(list[i].symbol)
                        && WithFreshPrices(list, BatchPrices(list, response))[i].currentPrice
                           == BatchPrice(response.value[j])
  {
    var prices := BatchPrices(list, response);
    assert list[i].symbol in prices && prices[list[i].symbol].Some?;
    CreditedKeys(SymbolsOf(list), FormattedSymbols(SymbolsOf(list), MarketMapOf(list)), response.value, list[i].symbol);
  }

  // ---------------------------------------------------------------------------
  // Portfolio / watch-only partition

  /** `w => w.costBasis > 0`. */
  predicate IsHeld(w: WatchlistItem) {
    w.costBasis > 0.0
  }

  /** `w => !w.costBasis || w.costBasis === 0`. */
  predicate IsWatchOnly(w: WatchlistItem) {
    w.costBasis == 0.0
  }

  function PortfolioItems(list: seq<WatchlistItem>): seq<WatchlistItem> {
    Filter(list, IsHeld)
  }

  function WatchOnlyItems(list: seq<WatchlistItem>): seq<WatchlistItem> {
    Filter(list, IsWatchOnly)
  }

  /** The portfolio holds the rows with a positive cost basis and the watch
      list those with a zero one; no row is in both, and a row with a negative
      cost basis is in neither. */
  lemma PartitionMembership(list: seq<WatchlistItem>, w: WatchlistItem)
    ensures w in PortfolioItems(list) <==> w in list && w.costBasis > 0.0
    ensures w in WatchOnlyItems(list) <==> w in list && w.costBasis == 0.0
    ensures !(w in PortfolioItems(list) && w in WatchOnlyItems(list))
    ensures w.costBasis < 0.0 ==> w !in PortfolioItems(list) && w !in WatchOnlyItems(list)
  {
    FilterMembership(list, IsHeld, w);
    FilterMembership(list, IsWatchOnly, w);
  }

  /** When no cost basis is negative, the two groups together account for
      every row. */
  lemma {:induction false} PartitionCovers(list: seq<WatchlistItem>)
    requires forall i :: 0 <= i < |list| ==> list[i].costBasis >= 0.0
    ensures |PortfolioItems(list)| + |WatchOnlyItems(list)| == |list|
  {
    if list != [] {
      PartitionCovers(list[1..]);
    }
  }

  // ---------------------------------------------------------------------------
  // The state

  /** The component state the table operations replace. */
  class AppState {
    var watchlist: seq<WatchlistItem>
    var history: seq<HistoryItem>
    var warning: Option<string>
    /** The row whose cost the edit dialog is changing, and whether the dialog
        is shown. */
    var editItem: Option<WatchlistItem>
    var showEditModal: bool

    constructor(watchlist: seq<WatchlistItem>, history: seq<HistoryItem>)
      ensures this.watchlist == watchlist && this.history == history
      ensures warning.None? && editItem.None? && !showEditModal
    {
      this.watchlist := watchlist;
      this.history := history;
      warning := None;
      editItem := None;
      showEditModal := false;
    }

    /** `updateHistory`. */
    method UpdateHistory(symbol: string, price: real, result: AnalysisResult, now: int)
      modifies this`history
      ensures history == HistoryWith(old(history), HistoryItem(symbol, price, result.score, result.direction, now))
    {
      var newItem := HistoryItem(symbol, price, result.score, result.direction, now);
      var filtered := Filter(history, OtherSymbol(symbol));
      history := Take([newItem] + filtered, HistoryLimit);
    }

    /** `addToWatchlist`: a symbol already listed only raises a warning;
        otherwise the new row is appended after the existing ones. */
    method AddToWatchlist(symbol: string, market: Market, costBasis: real, currency: Option<string>,
                          id: string, now: int, analysis: Option<AnalysisResult>, metaSymbol: Option<string>)
      modifies this`watchlist, this`warning
      ensures HasSymbol(old(watchlist), symbol) ==>
        watchlist == old(watchlist) && warning == Some(symbol + " is already in your watchlist.")
      ensures !HasSymbol(old(watchlist), symbol) ==>
        watchlist == old(watchlist) + [NewWatchItem(symbol, market, costBasis, currency, id, now, analysis, metaSymbol)]
        && warning == old(warning)
    {
      if HasSymbol(watchlist, symbol) {
        warning := Some(symbol + " is already in your watchlist.");
        return;
      }
      var newItem := WatchlistItem(id, symbol, market, costBasis, now, currency, Some(costBasis), None, None);
      if analysis.Some? && metaSymbol == Some(symbol) {
        newItem := newItem.(lastAnalysis := Some(SnapshotOf(analysis.value, now)));
      }
      watchlist := watchlist + [newItem];
    }

    /** `removeFromWatchlist`. */
    method RemoveFromWatchlist(id: string)
      modifies this`watchlist
      ensures watchlist == WithoutId(old(watchlist), id)
    {
      watchlist := Filter(watchlist, OtherId(id));
    }

    /** `handleUpdateCost`, given the parsed input (None when it is not a
        number): without an item being edited, or with an unparsable input,
        nothing changes; otherwise the rows of the edited id get the new cost
        and the dialog closes. */
    method HandleUpdateCost(parsedCost: Option<real>)
      modifies this`watchlist, this`editItem, this`showEditModal
      ensures old(editItem).None? || parsedCost.None? ==>
        watchlist == old(watchlist) && editItem == old(editItem) && showEditModal == old(showEditModal)
      ensures old(editItem).Some? && parsedCost.Some? ==>
        watchlist == WithCost(old(watchlist), old(editItem).value.id, parsedCost.value)
        && editItem.None? && !showEditModal
    {
      if editItem.None? {
        return;
      }
      if parsedCost.None? {
        return;
      }
      var newCost := parsedCost.value;
      var id := editItem.value.id;
      watchlist := seq(|watchlist|, i requires 0 <= i < |watchlist| reads this =>
        if watchlist[i].id == id then watchlist[i].(costBasis := newCost) else watchlist[i]);
      showEditModal := false;
      editItem := None;
    }

    /** `refreshPrices`, given the quote provider's answer: an empty watchlist
        is left alone; otherwise every row takes the fresh price found for
        its symbol. */
    method RefreshPrices(response: Option<seq<Quote>>)
      modifies this`watchlist
      ensures watchlist == WithFreshPrices(old(watchlist), BatchPrices(old(watchlist), response))
    {
      if |watchlist| == 0 {
        return;
      }
      var symbols := SymbolsOf(watchlist);
      var marketMap := MarketMapOf(watchlist);
      var prices := FetchBatchQuotes(symbols, marketMap, response);
      watchlist := WithFreshPrices(watchlist, prices);
    }

    /** `updateWatchlistAnalysis`. */
    method UpdateWatchlistAnalysis(symbol: string, result: AnalysisResult, currentPrice: real,
                                   currency: Option<string>, now: int)
      modifies this`watchlist
      ensures watchlist == WithAnalysis(old(watchlist), symbol, currentPrice, currency, SnapshotOf(result, now))
    {
      var snapshot := SnapshotOf(result, now);
      watchlist := seq(|watchlist|, i requires 0 <= i < |watchlist| reads this =>
        if watchlist[i].symbol == symbol
        then watchlist[i].(currentPrice := Some(currentPrice), currency := currency,
                           isLoading := Some(false), lastAnalysis := Some(snapshot))
        else watchlist[i]);
    }
  }
}
