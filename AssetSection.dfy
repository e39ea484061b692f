/** The paged asset list of src/components/AssetSection.tsx: the shown
    count and the expanded flag behind the Show More / Show Less button,
    the visible slice and the section's name table. */
module AssetSection {
  import opened Seqs
  import Comparison

  const PageSize: nat := 10

  /** `assets.slice(0, displayCount)`: the first `displayCount` assets, or
      all of them when there are fewer. */
  function VisibleAssets(assets: seq<string>, displayCount: nat): (r: seq<string>)
    ensures |r| == Min(displayCount, |assets|)
    ensures r == assets[..|r|]
  {
    if displayCount <= |assets| then assets[..displayCount] else assets
  }

  /** One press of the button from `(displayCount, expanded)` over `len`
      assets: Show Less returns to the first page, Show More adds a page up
      to the end and is expanded exactly when it reached the end. */
  function ShowMoreStep(displayCount: nat, expanded: bool, len: nat): (r: (nat, bool))
    ensures expanded ==> r == (PageSize, false)
    ensures !expanded ==> r.0 <= len && (r.0 == len || r.0 == displayCount + PageSize)
    ensures !expanded ==> r.0 >= Min(displayCount, len)
    ensures !expanded ==> (r.1 <==> r.0 == len)
  {
    if expanded then (PageSize, false)
    else (Min(displayCount + PageSize, len), displayCount + PageSize >= len)
  }

  /** The states the button can be pressed in: at least one page shown,
      never more than there are, and expanded exactly at the end. */
  predicate PagerInvariant(displayCount: nat, expanded: bool, len: nat)
  {
    PageSize <= displayCount <= len && (expanded <==> displayCount == len)
  }

  /** The button keeps the invariant once the list is longer than a page. */
  lemma StepKeepsInvariant(displayCount: nat, expanded: bool, len: nat)
    requires len > PageSize && PagerInvariant(displayCount, expanded, len)
    ensures var r := ShowMoreStep(displayCount, expanded, len); PagerInvariant(r.0, r.1, len)
  {
  }

  class Section {
    const assets: seq<string>
    const showAll: bool
    var displayCount: nat
    var expanded: bool

    /** The button is rendered only for a paged list longer than a page. */
    predicate ButtonShown()
      reads this
    {
      !showAll && |assets| > PageSize
    }

    predicate Valid()
      reads this
    {
      ButtonShown() ==> PagerInvariant(displayCount, expanded, |assets|)
    }

    /** The initial state: everything and expanded for `showAll`, one page
        otherwise. */
    constructor(assets: seq<string>, showAll: bool)
      ensures this.assets == assets && this.showAll == showAll
      ensures displayCount == (if showAll then |assets| else PageSize) && expanded == showAll
      ensures Valid()
    {
      this.assets := assets;
      this.showAll := showAll;
      displayCount := if showAll then |assets| else PageSize;
      expanded := showAll;
    }

    /** `handleShowMore`. */
    method HandleShowMore()
      requires Valid()
      modifies this
      ensures Valid()
      ensures (displayCount, expanded) == ShowMoreStep(old(displayCount), old(expanded), |assets|)
    {
      if ButtonShown() {
        StepKeepsInvariant(displayCount, expanded, |assets|);
      }
      if expanded {
        displayCount := PageSize;
        expanded := false;
      } else {
        var count := displayCount;
        displayCount := Min(count + PageSize, |assets|);
        expanded := count + PageSize >= |assets|;
      }
    }

    function Visible(): (r: seq<string>)
      reads this
      ensures Valid() && ButtonShown() ==> |r| == displayCount
    {
      VisibleAssets(assets, displayCount)
    }
  }

  /** The section's own `nameMap`. */
  const NameTable: map<string, string> := map[
    "AAPL" := "Apple Inc.",
    "GOOGL" := "Alphabet Inc.",
    "TSLA" := "Tesla Inc.",
    "MSFT" := "Microsoft Corp.",
    "NVDA" := "NVIDIA Corp.",
    "AMZN" := "Amazon.com Inc.",
    "META" := "Meta Platforms",
    "NFLX" := "Netflix Inc.",
    "AMD" := "Advanced Micro Devices",
    "INTC" := "Intel Corp.",
    "NS:RELIANCE" := "Reliance Industries",
    "NS:TCS" := "Tata Consultancy Services",
    "TSE:7203" := "Toyota Motor Corp",
    "LON:SHEL" := "Shell PLC",
    "EPA:MC" := "LVMH",
    "FRA:SAP" := "SAP SE",
    "TSE:6758" := "Sony Group Corp",
    "HKG:700" := "Tencent Holdings",
    "NS:INFY" := "Infosys Limited",
    "TSE:9984" := "SoftBank Group",
    "SPY" := "SPDR S&P 500 ETF",
    "QQQ" := "Invesco QQQ Trust",
    "VTI" := "Vanguard Total Stock Market",
    "IWM" := "iShares Russell 2000",
    "EFA" := "iShares MSCI EAFE",
    "GLD" := "SPDR Gold Shares",
    "TLT" := "iShares 20+ Year Treasury",
    "XLF" := "Financial Select Sector",
    "XLE" := "Energy Select Sector",
    "XLK" := "Technology Select Sector",
    "BINANCE:BTCUSDT" := "Bitcoin",
    "BINANCE:ETHUSDT" := "Ethereum",
    "BINANCE:ADAUSDT" := "Cardano",
    "BINANCE:DOTUSDT" := "Polkadot",
    "BINANCE:LINKUSDT" := "Chainlink",
    "BINANCE:LTCUSDT" := "Litecoin",
    "BINANCE:XRPUSDT" := "XRP",
    "BINANCE:BNBUSDT" := "Binance Coin",
    "BINANCE:SOLUSDT" := "Solana",
    "BINANCE:MATICUSDT" := "Polygon"
  ]

  /** `getAssetName` of the section. */
  function AssetName(symbol: string): string
  {
    Comparison.LookupName(NameTable, symbol)
  }

  /** The mapped name for a listed symbol, the symbol itself otherwise. */
  lemma AssetNameTable(symbol: string)
    ensures symbol in NameTable ==> AssetName(symbol) == NameTable[symbol]
    ensures symbol !in NameTable ==> AssetName(symbol) == symbol
  {
  }
}
