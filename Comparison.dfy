/** The asset comparison panel of src/components/AssetComparison/index.tsx:
    the selection of at most three assets built by drag and drop, removal,
    clearing, the two-to-three guard of the comparison, the name table and
    the case-insensitive search over the category table of
    src/components/AssetComparison/AssetCategories.tsx. The pure steps are
    shared with the older single-file panel (module LegacyComparison). */
module Comparison {
  import opened Wrappers
  import opened Strings
  import opened Seqs

  /** An entry of `selectedAssets`; the fetched quote, profile and sentiment
      are not kept in the model. */
  datatype Asset = Asset(symbol: string, name: string, kind: string)

  const MaxAssets: nat := 3

  /** `nameMap` of `getAssetName`. */
  const NameTable: map<string, string> := map[
    "AAPL" := "Apple Inc.",
    "GOOGL" := "Alphabet Inc.",
    "TSLA" := "Tesla Inc.",
    "MSFT" := "Microsoft Corp.",
    "NVDA" := "NVIDIA Corp.",
    "AMZN" := "Amazon.com Inc.",
    "META" := "Meta Platforms",
    "NFLX" := "Netflix Inc.",
    "NS:RELIANCE" := "Reliance Industries",
    "NS:TCS" := "Tata Consultancy Services",
    "TSE:7203" := "Toyota Motor Corp",
    "SPY" := "SPDR S&P 500 ETF",
    "QQQ" := "Invesco QQQ Trust",
    "VTI" := "Vanguard Total Stock Market",
    "BINANCE:BTCUSDT" := "Bitcoin",
    "BINANCE:ETHUSDT" := "Ethereum",
    "BINANCE:ADAUSDT" := "Cardano"
  ]

  /** `nameMap[symbol] || symbol` over a given table: the mapped name when
      there is a non-empty one, the symbol itself otherwise. */
  function LookupName(table: map<string, string>, symbol: string): (name: string)
    ensures symbol in table && table[symbol] != "" ==> name == table[symbol]
    ensures symbol !in table || table[symbol] == "" ==> name == symbol
  {
    if symbol in table && table[symbol] != "" then table[symbol] else symbol
  }

  /** `getAssetName`. */
  function AssetName(symbol: string): string
  {
    LookupName(NameTable, symbol)
  }

  /** Every name in the table is non-empty, so `||` never falls through for
      a listed symbol. */
  lemma AssetNameTable(symbol: string)
    ensures symbol in NameTable ==> AssetName(symbol) == NameTable[symbol]
    ensures symbol !in NameTable ==> AssetName(symbol) == symbol
  {
  }

  lemma AssetNameExamples()
    ensures AssetName("AAPL") == "Apple Inc."
    ensures AssetName("LON:SHEL") == "LON:SHEL"
  {
  }

  // ---------------------------------------------------------------------
  // The selection.
  // ---------------------------------------------------------------------

  /** No two entries share a symbol. */
  predicate DistinctSymbols(s: seq<Asset>)
  {
    forall i, j :: 0 <= i < j < |s| ==> s[i].symbol != s[j].symbol
  }

  /** At most three assets, no symbol twice. */
  predicate ValidSelection(s: seq<Asset>)
  {
    |s| <= MaxAssets && DistinctSymbols(s)
  }

  predicate Selected(s: seq<Asset>, symbol: string)
  {
    exists i :: 0 <= i < |s| && s[i].symbol == symbol
  }

  /** How a drop ends: rejected as over capacity, rejected as a duplicate,
      or accepted with the new selection. */
  datatype DropResult = TooMany | AlreadySelected | Added(selection: seq<Asset>)

  /** `handleDrop` on a parsed payload: the capacity test comes first, then
      the duplicate test; an accepted asset is appended with its name. */
  function Drop(selected: seq<Asset>, symbol: string, kind: string, name: string): (r: DropResult)
    ensures r.TooMany? <==> |selected| >= MaxAssets
    ensures r.AlreadySelected? <==> |selected| < MaxAssets && Selected(selected, symbol)
    ensures r.Added? <==> |selected| < MaxAssets && !Selected(selected, symbol)
    ensures r.Added? ==> r.selection == selected + [Asset(symbol, name, kind)]
  {
    if |selected| >= MaxAssets then TooMany
    else if exists i :: 0 <= i < |selected| && selected[i].symbol == symbol then AlreadySelected
    else Added(selected + [Asset(symbol, name, kind)])
  }

  /** An accepted drop keeps the selection valid. */
  lemma DropPreservesValid(selected: seq<Asset>, symbol: string, kind: string, name: string)
    requires ValidSelection(selected)
    ensures var r := Drop(selected, symbol, kind, name);
      r.Added? ==> ValidSelection(r.selection) && |r.selection| == |selected| + 1
  {
    var r := Drop(selected, symbol, kind, name);
    if r.Added? {
      var t := r.selection;
      forall i, j | 0 <= i < j < |t| ensures t[i].symbol != t[j].symbol {
        if j == |selected| {
          assert t[i] == selected[i];
        } else {
          assert t[i] == selected[i] && t[j] == selected[j];
        }
      }
    }
  }

  function NotSymbol(symbol: string): Asset -> bool
  {
    (a: Asset) => a.symbol != symbol
  }

  /** `removeAsset`: `prev.filter(asset => asset.symbol !== symbol)`. */
  function Remove(selected: seq<Asset>, symbol: string): (r: seq<Asset>)
    ensures !Selected(r, symbol)
    ensures forall i :: 0 <= i < |r| ==> r[i] in selected
    ensures forall i :: 0 <= i < |selected| && selected[i].symbol != symbol ==> selected[i] in r
  {
    var r := Filter(selected, NotSymbol(symbol));
    assert forall i :: 0 <= i < |r| ==> NotSymbol(symbol)(r[i]);
    r
  }

  /** Removal works entry by entry, so the kept entries stay in order. */
  lemma RemoveConcat(a: seq<Asset>, b: seq<Asset>, symbol: string)
    ensures Remove(a + b, symbol) == Remove(a, symbol) + Remove(b, symbol)
  {
    FilterConcat(a, b, NotSymbol(symbol));
  }

  /** Removing a symbol that is not selected changes nothing. */
  lemma RemoveAbsentSymbol(selected: seq<Asset>, symbol: string)
    requires !Selected(selected, symbol)
    ensures Remove(selected, symbol) == selected
  {
    FilterAll(selected, NotSymbol(symbol));
  }

  /** Dropping a new asset and removing it again restores the selection. */
  lemma RemoveUndoesDrop(selected: seq<Asset>, symbol: string, kind: string, name: string)
    requires Drop(selected, symbol, kind, name).Added?
    ensures Remove(Drop(selected, symbol, kind, name).selection, symbol) == selected
  {
    RemoveConcat(selected, [Asset(symbol, name, kind)], symbol);
    RemoveAbsentSymbol(selected, symbol);
  }

  lemma {:induction false} FilterKeepsDistinct(s: seq<Asset>, p: Asset -> bool)
    requires DistinctSymbols(s)
    ensures DistinctSymbols(Filter(s, p))
    decreases |s|
  {
    if s != [] {
      var rest := Filter(s[1..], p);
      assert DistinctSymbols(s[1..]) by {
        forall i, j | 0 <= i < j < |s[1..]| ensures s[1..][i].symbol != s[1..][j].symbol {
          assert s[1..][i] == s[i + 1] && s[1..][j] == s[j + 1];
        }
      }
      FilterKeepsDistinct(s[1..], p);
      if p(s[0]) {
        var r := [s[0]] + rest;
        forall i, j | 0 <= i < j < |r| ensures r[i].symbol != r[j].symbol {
          if i == 0 {
            assert r[j] == rest[j - 1];
            assert rest[j - 1] in s[1..];
            var k :| 0 <= k < |s[1..]| && s[1..][k] == rest[j - 1];
            assert s[k + 1] == rest[j - 1];
          } else {
            assert r[i] == rest[i - 1] && r[j] == rest[j - 1];
          }
        }
      }
    }
  }

  /** Removal keeps the selection valid. */
  lemma RemovePreservesValid(selected: seq<Asset>, symbol: string)
    requires ValidSelection(selected)
    ensures ValidSelection(Remove(selected, symbol))
  {
    FilterKeepsDistinct(selected, NotSymbol(symbol));
  }

  /** `handleCompare`'s guard. */
  function CompareAllowed(count: nat): bool
  {
    2 <= count <= 3
  }

  /** On a valid selection the upper bound never rejects. */
  lemma CompareNeedsTwo(selected: seq<Asset>)
    requires ValidSelection(selected)
    ensures CompareAllowed(|selected|) <==> |selected| >= 2
  {
  }

  // ---------------------------------------------------------------------
  // The category table and the search.
  // ---------------------------------------------------------------------

  datatype Category = Category(key: string, title: string, icon: string, assets: seq<string>)

  /** `assetCategories`, in key order. */
  const Categories: seq<Category> := [
    Category("us", "US Stocks", "\U{1F1FA}\U{1F1F8}", ["AAPL", "GOOGL", "TSLA", "MSFT", "NVDA", "AMZN", "META", "NFLX"]),
    Category("global", "Global Stocks", "\U{1F30D}", ["NS:RELIANCE", "NS:TCS", "TSE:7203", "LON:SHEL", "EPA:MC"]),
    Category("etfs", "ETFs", "\U{1F4E6}", ["SPY", "QQQ", "VTI", "IWM", "EFA", "GLD", "TLT"]),
    Category("crypto", "Cryptocurrency", "\U{20BF}", ["BINANCE:BTCUSDT", "BINANCE:ETHUSDT", "BINANCE:ADAUSDT"])
  ]

  /** The search test: the lowercased term occurs in the lowercased symbol
      or in the lowercased name. */
  predicate Matches(names: map<string, string>, symbol: string, term: string)
  {
    Includes(ToLower(symbol), ToLower(term)) || Includes(ToLower(LookupName(names, symbol)), ToLower(term))
  }

  function MatchesTerm(names: map<string, string>, term: string): string -> bool
  {
    (symbol: string) => Matches(names, symbol, term)
  }

  /** A category with only its matching assets. */
  function Restrict(names: map<string, string>, c: Category, term: string): Category
  {
    c.(assets := Filter(c.assets, MatchesTerm(names, term)))
  }

  /** `filteredAssets`: the categories in order, each with its matching
      assets, and those left empty omitted. */
  function FilterCategories(names: map<string, string>, categories: seq<Category>, term: string): (r: seq<Category>)
    ensures |r| <= |categories|
    ensures forall i :: 0 <= i < |r| ==> r[i].assets != []
    decreases |categories|
  {
    if categories == [] then []
    else
      var c := Restrict(names, categories[0], term);
      var rest := FilterCategories(names, categories[1..], term);
      if c.assets != [] then [c] + rest else rest
  }

  /** A category appears in the result exactly when one of its assets
      matches, and then with exactly its matching assets. */
  lemma {:induction false} FilterCategoriesExactly(names: map<string, string>, categories: seq<Category>, term: string, c: Category)
    ensures c in FilterCategories(names, categories, term) <==>
      exists j :: 0 <= j < |categories| && c == Restrict(names, categories[j], term) && c.assets != []
    decreases |categories|
  {
    if categories != [] {
      FilterCategoriesExactly(names, categories[1..], term, c);
      if exists j :: 0 <= j < |categories| - 1 && c == Restrict(names, categories[1..][j], term) && c.assets != [] {
        var j :| 0 <= j < |categories| - 1 && c == Restrict(names, categories[1..][j], term) && c.assets != [];
        assert categories[j + 1] == categories[1..][j];
      }
      if exists j :: 0 <= j < |categories| && c == Restrict(names, categories[j], term) && c.assets != [] {
        var j :| 0 <= j < |categories| && c == Restrict(names, categories[j], term) && c.assets != [];
        if j > 0 {
          assert categories[1..][j - 1] == categories[j];
        }
      }
    }
  }

  /** An asset is kept exactly when it matches the term. */
  lemma KeptIffMatches(names: map<string, string>, c: Category, term: string, symbol: string)
    ensures symbol in Restrict(names, c, term).assets <==> symbol in c.assets && Matches(names, symbol, term)
  {
    var r := Restrict(names, c, term).assets;
    if symbol in r {
      var i :| 0 <= i < |r| && r[i] == symbol;
      assert MatchesTerm(names, term)(r[i]);
    }
    if symbol in c.assets && Matches(names, symbol, term) {
      var i :| 0 <= i < |c.assets| && c.assets[i] == symbol;
      assert MatchesTerm(names, term)(c.assets[i]);
    }
  }

  /** The empty search keeps every category whole. */
  lemma {:induction false} EmptyTermKeepsAll(names: map<string, string>, categories: seq<Category>)
    requires forall i :: 0 <= i < |categories| ==> categories[i].assets != []
    ensures FilterCategories(names, categories, "") == categories
    decreases |categories|
  {
    if categories != [] {
      var c := categories[0];
      forall i | 0 <= i < |c.assets| ensures MatchesTerm(names, "")(c.assets[i]) {
        IncludesEmpty(ToLower(c.assets[i]));
      }
      FilterAll(c.assets, MatchesTerm(names, ""));
      assert Restrict(names, c, "") == c;
      EmptyTermKeepsAll(names, categories[1..]);
    }
  }

  lemma CategoriesNonEmpty()
    ensures forall i :: 0 <= i < |Categories| ==> Categories[i].assets != []
  {
  }

  // ---------------------------------------------------------------------
  // The panel.
  // ---------------------------------------------------------------------

  /** The toasts the panel raises. */
  datatype Toast = MaximumReached | AlreadyInComparison | AssetAdded(name: string) | InvalidSelection | ComparisonFailed

  /** The JSON payload of a drag: `None` when `JSON.parse` throws. */
  datatype DragData = DragData(symbol: string, kind: string)

  class ComparisonPanel {
    var selected: seq<Asset>
    var searchTerm: string
    var aiResponse: string
    var loading: bool

    predicate Valid()
      reads this
    {
      ValidSelection(selected)
    }

    constructor()
      ensures Valid()
      ensures selected == [] && searchTerm == "" && aiResponse == "" && !loading
    {
      selected := [];
      searchTerm := "";
      aiResponse := "";
      loading := false;
    }

    /** `handleDrop`: a payload that fails to parse changes nothing. */
    method HandleDrop(data: Option<DragData>) returns (toast: Option<Toast>)
      requires Valid()
      modifies this
      ensures Valid()
      ensures data.None? ==> toast == None && selected == old(selected)
      ensures data.Some? ==>
        match Drop(old(selected), data.value.symbol, data.value.kind, AssetName(data.value.symbol))
        case TooMany => toast == Some(MaximumReached) && selected == old(selected)
        case AlreadySelected => toast == Some(AlreadyInComparison) && selected == old(selected)
        case Added(s) => toast == Some(AssetAdded(AssetName(data.value.symbol))) && selected == s
      ensures searchTerm == old(searchTerm) && aiResponse == old(aiResponse) && loading == old(loading)
    {
      if data.None? {
        return None;
      }
      var name := AssetName(data.value.symbol);
      DropPreservesValid(selected, data.value.symbol, data.value.kind, name);
      match Drop(selected, data.value.symbol, data.value.kind, name) {
        case TooMany => toast := Some(MaximumReached);
        case AlreadySelected => toast := Some(AlreadyInComparison);
        case Added(s) =>
          selected := s;
          toast := Some(AssetAdded(name));
      }
    }

    /** `removeAsset`. */
    method RemoveAsset(symbol: string)
      requires Valid()
      modifies this
      ensures Valid()
      ensures selected == Remove(old(selected), symbol)
      ensures searchTerm == old(searchTerm) && aiResponse == old(aiResponse) && loading == old(loading)
    {
      RemovePreservesValid(selected, symbol);
      selected := Remove(selected, symbol);
    }

    /** `clearAll`: both the selection and the analysis are emptied. */
    method ClearAll()
      modifies this
      ensures Valid()
      ensures selected == [] && aiResponse == ""
      ensures searchTerm == old(searchTerm) && loading == old(loading)
    {
      selected := [];
      aiResponse := "";
    }

    method SetSearchTerm(term: string)
      modifies this
      ensures searchTerm == term
      ensures selected == old(selected) && aiResponse == old(aiResponse) && loading == old(loading)
    {
      searchTerm := term;
    }

    /** `handleCompare` run to completion: outside two to three assets it
        only raises a toast; otherwise the analysis is cleared and then set
        to the chat reply, or stays empty with a toast when the awaited work
        throws (`None`). Loading is off again at the end. */
    method HandleCompare(reply: Option<string>) returns (toast: Option<Toast>)
      modifies this
      ensures !CompareAllowed(|old(selected)|) ==>
        toast == Some(InvalidSelection) && aiResponse == old(aiResponse) && loading == old(loading)
      ensures CompareAllowed(|old(selected)|) ==>
        && aiResponse == reply.GetOr("")
        && toast == (if reply.None? then Some(ComparisonFailed) else None)
        && !loading
      ensures selected == old(selected) && searchTerm == old(searchTerm)
    {
      if !CompareAllowed(|selected|) {
        return Some(InvalidSelection);
      }
      loading := true;
      aiResponse := "";
      toast := None;
      match reply {
        case Some(text) => aiResponse := text;
        case None => toast := Some(ComparisonFailed);
      }
      loading := false;
    }

    /** `filteredAssets` for the current search term. */
    function FilteredAssets(): (r: seq<Category>)
      reads this
      ensures forall i :: 0 <= i < |r| ==> r[i].assets != []
    {
      FilterCategories(NameTable, Categories, searchTerm)
    }
  }
}
