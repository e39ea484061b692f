/** The watchlist page of src/components/Watchlist.tsx: adding a typed
    symbol and the case-insensitive search over the list. */
module Watchlist {
  import opened Wrappers
  import opened Strings
  import opened Seqs

  datatype Stock = Stock(symbol: string, name: string)

  /** `initialWatchlist`. */
  const InitialWatchlist: seq<Stock> := [
    Stock("AAPL", "Apple Inc."),
    Stock("GOOGL", "Alphabet Inc."),
    Stock("TSLA", "Tesla Inc."),
    Stock("MSFT", "Microsoft Corp."),
    Stock("NVDA", "NVIDIA Corp."),
    Stock("AMZN", "Amazon.com Inc.")
  ]

  predicate Listed(list: seq<Stock>, symbol: string)
  {
    exists i :: 0 <= i < |list| && list[i].symbol == symbol
  }

  /** No symbol occurs twice. */
  predicate DistinctStocks(list: seq<Stock>)
  {
    forall i, j :: 0 <= i < j < |list| ==> list[i].symbol != list[j].symbol
  }

  /** The entry added for a typed symbol: the whole input uppercased (not
      trimmed) and that text followed by " Inc.". */
  function NewStock(input: string): Stock
  {
    Stock(ToUpper(input), ToUpper(input) + " Inc.")
  }

  /** `handleAddStock` on the list: `None` when the input is blank after
      trimming or its uppercased form is already listed, otherwise the list
      with the new entry at the end. */
  function AddStock(list: seq<Stock>, input: string): (r: Option<seq<Stock>>)
    ensures r.None? <==> IsBlank(input) || Listed(list, ToUpper(input))
    ensures r.Some? ==> r.value == list + [NewStock(input)]
  {
    if TrimsToEmpty(input) || Listed(list, ToUpper(input)) then None
    else Some(list + [NewStock(input)])
  }

  lemma InitialDistinct()
    ensures DistinctStocks(InitialWatchlist)
  {
  }

  /** Adding keeps the symbols distinct and the earlier entries in place. */
  lemma AddPreservesDistinct(list: seq<Stock>, input: string)
    requires DistinctStocks(list)
    ensures var r := AddStock(list, input);
      r.Some? ==> DistinctStocks(r.value) && r.value[..|list|] == list && |r.value| == |list| + 1
  {
    var r := AddStock(list, input);
    if r.Some? {
      var t := r.value;
      forall i, j | 0 <= i < j < |t| ensures t[i].symbol != t[j].symbol {
        if j == |list| {
          assert t[i] == list[i];
        } else {
          assert t[i] == list[i] && t[j] == list[j];
        }
      }
    }
  }

  /** The search test on one entry. */
  predicate StockMatches(s: Stock, term: string)
  {
    Includes(ToLower(s.symbol), ToLower(term)) || Includes(ToLower(s.name), ToLower(term))
  }

  function MatchesTerm(term: string): Stock -> bool
  {
    (s: Stock) => StockMatches(s, term)
  }

  /** `filteredWatchlist`. */
  function FilterWatchlist(list: seq<Stock>, term: string): (r: seq<Stock>)
    ensures forall i :: 0 <= i < |r| ==> r[i] in list && StockMatches(r[i], term)
    ensures forall i :: 0 <= i < |list| && StockMatches(list[i], term) ==> list[i] in r
  {
    var r := Filter(list, MatchesTerm(term));
    assert forall i :: 0 <= i < |r| ==> MatchesTerm(term)(r[i]);
    assert forall i :: 0 <= i < |list| && StockMatches(list[i], term) ==> MatchesTerm(term)(list[i]);
    r
  }

  /** The search works entry by entry, so the shown entries keep their order. */
  lemma FilterKeepsOrder(a: seq<Stock>, b: seq<Stock>, term: string)
    ensures FilterWatchlist(a + b, term) == FilterWatchlist(a, term) + FilterWatchlist(b, term)
  {
    FilterConcat(a, b, MatchesTerm(term));
  }

  /** The empty search shows the whole list. */
  lemma EmptySearchShowsAll(list: seq<Stock>)
    ensures FilterWatchlist(list, "") == list
  {
    forall i | 0 <= i < |list| ensures MatchesTerm("")(list[i]) {
      IncludesEmpty(ToLower(list[i].symbol));
    }
    FilterAll(list, MatchesTerm(""));
  }

  class WatchlistPage {
    var watchlist: seq<Stock>
    var searchTerm: string
    var newSymbol: string

    predicate Valid()
      reads this
    {
      DistinctStocks(watchlist)
    }

    constructor()
      ensures Valid()
      ensures watchlist == InitialWatchlist && searchTerm == "" && newSymbol == ""
    {
      watchlist := InitialWatchlist;
      searchTerm := "";
      newSymbol := "";
      InitialDistinct();
    }

    method SetNewSymbol(text: string)
      modifies this
      ensures newSymbol == text && watchlist == old(watchlist) && searchTerm == old(searchTerm)
    {
      newSymbol := text;
    }

    method SetSearchTerm(term: string)
      modifies this
      ensures searchTerm == term && watchlist == old(watchlist) && newSymbol == old(newSymbol)
    {
      searchTerm := term;
    }

    /** `handleAddStock`: on acceptance the entry is appended and the input
        cleared; otherwise nothing changes. */
    method HandleAddStock()
      requires Valid()
      modifies this
      ensures Valid()
      ensures watchlist == AddStock(old(watchlist), old(newSymbol)).GetOr(old(watchlist))
      ensures newSymbol == if AddStock(old(watchlist), old(newSymbol)).Some? then "" else old(newSymbol)
      ensures searchTerm == old(searchTerm)
    {
      AddPreservesDistinct(watchlist, newSymbol);
      var r := AddStock(watchlist, newSymbol);
      if r.Some? {
        watchlist := r.value;
        newSymbol := "";
      }
    }

    function FilteredWatchlist(): (r: seq<Stock>)
      reads this
      ensures |r| <= |watchlist|
    {
      FilterWatchlist(watchlist, searchTerm)
    }
  }
}
