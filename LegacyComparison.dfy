/** The older single-file comparison panel of
    src/components/AssetComparison.tsx. It carries its own copies of the
    name table and the category table; both equal the ones of module
    Comparison, whose pure steps the panel below reuses. */
module LegacyComparison {
  import opened Wrappers
  import opened Comparison

  /** The legacy panel's own `nameMap`. */
  const LegacyNameTable: map<string, string> := map[
    "AAPL" := "Apple Inc.",
    "GOOGL" := "Alphabet Inc.",
    "TSLA" := "Tesla Inc.",
    "MSFT" := "Microsoft Corp.",
    "NVDA" := "NVIDIA Corp.",
    "AMZN" := "Amazon.com Inc.",
    "META" := "Meta Platforms",
    "NFLX" := "Netflix Inc.",
    "NS:RELIANCE" := "Reliance Industries",
    "NS:TCS" := "Tata Consultancy Services",
    "TSE:7203" := "Toyota Motor Corp",
    "SPY" := "SPDR S&P 500 ETF",
    "QQQ" := "Invesco QQQ Trust",
    "VTI" := "Vanguard Total Stock Market",
    "BINANCE:BTCUSDT" := "Bitcoin",
    "BINANCE:ETHUSDT" := "Ethereum",
    "BINANCE:ADAUSDT" := "Cardano"
  ]

  /** The legacy panel's own `assetCategories`. */
  const LegacyCategories: seq<Category> := [
    Category("us", "US Stocks", "\U{1F1FA}\U{1F1F8}", ["AAPL", "GOOGL", "TSLA", "MSFT", "NVDA", "AMZN", "META", "NFLX"]),
    Category("global", "Global Stocks", "\U{1F30D}", ["NS:RELIANCE", "NS:TCS", "TSE:7203", "LON:SHEL", "EPA:MC"]),
    Category("etfs", "ETFs", "\U{1F4E6}", ["SPY", "QQQ", "VTI", "IWM", "EFA", "GLD", "TLT"]),
    Category("crypto", "Cryptocurrency", "\U{20BF}", ["BINANCE:BTCUSDT", "BINANCE:ETHUSDT", "BINANCE:ADAUSDT"])
  ]

  /** `getAssetName` of the legacy panel. */
  function LegacyAssetName(symbol: string): string
  {
    LookupName(LegacyNameTable, symbol)
  }

  /** The two copies agree, so names and search results are the same in
      both panels. */
  lemma LegacyTablesAgree(term: string, symbol: string)
    ensures LegacyNameTable == NameTable && LegacyCategories == Categories
    ensures LegacyAssetName(symbol) == AssetName(symbol)
    ensures FilterCategories(LegacyNameTable, LegacyCategories, term) == FilterCategories(NameTable, Categories, term)
  {
  }

  class LegacyPanel {
    var selected: seq<Asset>
    var searchTerm: string
    var aiResponse: string
    var loading: bool

    predicate Valid()
      reads this
    {
      ValidSelection(selected)
    }

    constructor()
      ensures Valid()
      ensures selected == [] && searchTerm == "" && aiResponse == "" && !loading
    {
      selected := [];
      searchTerm := "";
      aiResponse := "";
      loading := false;
    }

    /** `handleDrop`: capacity first, then duplicates; a payload that fails
        to parse changes nothing. */
    method HandleDrop(data: Option<DragData>) returns (toast: Option<Toast>)
      requires Valid()
      modifies this
      ensures Valid()
      ensures data.None? ==> toast == None && selected == old(selected)
      ensures data.Some? ==>
        match Drop(old(selected), data.value.symbol, data.value.kind, LegacyAssetName(data.value.symbol))
        case TooMany => toast == Some(MaximumReached) && selected == old(selected)
        case AlreadySelected => toast == Some(AlreadyInComparison) && selected == old(selected)
        case Added(s) => toast == Some(AssetAdded(LegacyAssetName(data.value.symbol))) && selected == s
      ensures searchTerm == old(searchTerm) && aiResponse == old(aiResponse) && loading == old(loading)
    {
      if data.None? {
        return None;
      }
      var name := LegacyAssetName(data.value.symbol);
      DropPreservesValid(selected, data.value.symbol, data.value.kind, name);
      match Drop(selected, data.value.symbol, data.value.kind, name) {
        case TooMany => toast := Some(MaximumReached);
        case AlreadySelected => toast := Some(AlreadyInComparison);
        case Added(s) =>
          selected := s;
          toast := Some(AssetAdded(name));
      }
    }

    /** `removeAsset`. */
    method RemoveAsset(symbol: string)
      requires Valid()
      modifies this
      ensures Valid()
      ensures selected == Remove(old(selected), symbol)
      ensures searchTerm == old(searchTerm) && aiResponse == old(aiResponse) && loading == old(loading)
    {
      RemovePreservesValid(selected, symbol);
      selected := Remove(selected, symbol);
    }

    /** `clearAll`. */
    method ClearAll()
      modifies this
      ensures Valid()
      ensures selected == [] && aiResponse == ""
      ensures searchTerm == old(searchTerm) && loading == old(loading)
    {
      selected := [];
      aiResponse := "";
    }

    /** `handleCompare` run to completion, as in the newer panel. */
    method HandleCompare(reply: Option<string>) returns (toast: Option<Toast>)
      modifies this
      ensures !CompareAllowed(|old(selected)|) ==>
        toast == Some(InvalidSelection) && aiResponse == old(aiResponse) && loading == old(loading)
      ensures CompareAllowed(|old(selected)|) ==>
        && aiResponse == reply.GetOr("")
        && toast == (if reply.None? then Some(ComparisonFailed) else None)
        && !loading
      ensures selected == old(selected) && searchTerm == old(searchTerm)
    {
      if !CompareAllowed(|selected|) {
        return Some(InvalidSelection);
      }
      loading := true;
      aiResponse := "";
      toast := None;
      match reply {
        case Some(text) => aiResponse := text;
        case None => toast := Some(ComparisonFailed);
      }
      loading := false;
    }

    /** `filteredAssets` over the legacy tables. */
    function FilteredAssets(): (r: seq<Category>)
      reads this
      ensures forall i :: 0 <= i < |r| ==> r[i].assets != []
    {
      FilterCategories(LegacyNameTable, LegacyCategories, searchTerm)
    }
  }
}
