/** The card header of src/components/StockCardHeader.tsx: the asset-type
    icon, the live dot, the pin and watchlist buttons and the displayed
    symbol without its exchange prefix. */
module StockCardHeader {
  import opened Wrappers
  import opened Strings
  import Comparison

  // ---------------------------------------------------------------------
  // The icon.
  // ---------------------------------------------------------------------

  /** `getAssetIcon` as written: the file holds the emoji's UTF-8 bytes read
      back one byte per character (Windows-1252), so these code points are
      what is displayed. */
  function AssetIconAsWritten(assetType: Option<string>): (icon: string)
    ensures icon != "" <==> assetType.Some? && assetType.value in {"us", "global", "etfs", "crypto"}
  {
    if assetType == Some("us") then "\U{F0}\U{178}\U{2021}\U{BA}\U{F0}\U{178}\U{2021}\U{B8}"
    else if assetType == Some("global") then "\U{F0}\U{178}\U{152}"
    else if assetType == Some("etfs") then "\U{F0}\U{178}\U{201C}\U{A6}"
    else if assetType == Some("crypto") then "\U{E2}\U{201A}\U{BF}"
    else ""
  }

  /** The as-written icons are not the category icons of the comparison
      table for the same keys. */
  lemma IconsAsWrittenDiffer()
    ensures forall i :: 0 <= i < |Comparison.Categories| ==>
      AssetIconAsWritten(Some(Comparison.Categories[i].key)) != Comparison.Categories[i].icon
  {
    forall i | 0 <= i < |Comparison.Categories|
      ensures AssetIconAsWritten(Some(Comparison.Categories[i].key)) != Comparison.Categories[i].icon
    {
      var c := Comparison.Categories[i];
      assert AssetIconAsWritten(Some(c.key))[0] != c.icon[0];
    }
  }

  /** `getAssetIcon` with the intended emoji; any other type, and a missing
      one, gets no icon. */
  function AssetIcon(assetType: Option<string>): (icon: string)
    ensures icon != "" <==> assetType.Some? && assetType.value in {"us", "global", "etfs", "crypto"}
  {
    if assetType == Some("us") then "\U{1F1FA}\U{1F1F8}"
    else if assetType == Some("global") then "\U{1F30D}"
    else if assetType == Some("etfs") then "\U{1F4E6}"
    else if assetType == Some("crypto") then "\U{20BF}"
    else ""
  }

  /** The corrected icons are those of the category table. */
  lemma AssetIconMatchesCategories()
    ensures forall i :: 0 <= i < |Comparison.Categories| ==>
      AssetIcon(Some(Comparison.Categories[i].key)) == Comparison.Categories[i].icon
  {
  }

  // ---------------------------------------------------------------------
  // The displayed symbol.
  // ---------------------------------------------------------------------

  /** The number of capital letters `s` starts with. */
  function LeadingCapitals(s: string): (n: nat)
    ensures n <= |s|
    ensures forall k :: 0 <= k < n ==> IsUpper(s[k])
    ensures n < |s| ==> !IsUpper(s[n])
    decreases |s|
  {
    if s != [] && IsUpper(s[0]) then 1 + LeadingCapitals(s[1..]) else 0
  }

  /** `s` starts with one or more capitals and a colon. */
  predicate HasExchangePrefix(s: string)
  {
    exists n :: 0 < n < |s| && (forall k :: 0 <= k < n ==> IsUpper(s[k])) && s[n] == ':'
  }

  /** `symbol.replace(/^[A-Z]+:/, '')`. */
  function StripExchange(symbol: string): (r: string)
    ensures |r| <= |symbol| && r == symbol[|symbol| - |r|..]
  {
    var n := LeadingCapitals(symbol);
    if 0 < n < |symbol| && symbol[n] == ':' then symbol[n + 1..] else symbol
  }

  /** A colon after capitals can only sit just after all of them. */
  lemma PrefixLength(s: string, m: nat)
    requires 0 < m < |s| && (forall k :: 0 <= k < m ==> IsUpper(s[k])) && s[m] == ':'
    ensures m == LeadingCapitals(s)
  {
  }

  /** The capitals and the colon the symbol starts with are removed, once;
      any other symbol is kept. */
  lemma StripExchangeSpec(symbol: string)
    ensures !HasExchangePrefix(symbol) ==> StripExchange(symbol) == symbol
    ensures HasExchangePrefix(symbol) ==>
      var n := LeadingCapitals(symbol); 0 < n < |symbol| && symbol[n] == ':' && StripExchange(symbol) == symbol[n + 1..]
  {
    if HasExchangePrefix(symbol) {
      var m :| 0 < m < |symbol| && (forall k :: 0 <= k < m ==> IsUpper(symbol[k])) && symbol[m] == ':';
      PrefixLength(symbol, m);
    }
  }

  /** The prefix is the one before the first colon, so exactly one level is
      removed. */
  lemma StripExchangeExamples()
    ensures StripExchange("TSE:7203") == "7203"
    ensures StripExchange("A:B:C") == "B:C"
    ensures StripExchange("AAPL") == "AAPL"
    ensures StripExchange("ab:C") == "ab:C"
  {
    assert LeadingCapitals("TSE:7203") == 3 by {
      assert "TSE:7203"[1..] == "SE:7203" && "SE:7203"[1..] == "E:7203" && "E:7203"[1..] == ":7203";
    }
    assert LeadingCapitals("A:B:C") == 1 by {
      assert "A:B:C"[1..] == ":B:C";
    }
    assert !HasExchangePrefix("AAPL") by {
      assert forall k :: 0 <= k < 4 ==> "AAPL"[k] != ':';
    }
    assert !HasExchangePrefix("ab:C") by {
      assert !IsUpper("ab:C"[0]);
    }
  }

  // ---------------------------------------------------------------------
  // The view.
  // ---------------------------------------------------------------------

  datatype WatchIcon = Plus | Minus

  datatype Header = Header(liveDot: bool, icon: Option<string>, pinClass: string,
                           watchIcon: WatchIcon, watchClass: string, title: string)

  /** What the header shows: the live dot only when the card is real-time
      and live updates are on, the icon as written only for a given type,
      so a type other than the four keys shows an empty icon box, the minus
      button exactly for a card on the watchlist. */
  function View(symbol: string, assetType: Option<string>, isRealTime: bool, liveUpdatesEnabled: bool,
                isPinned: bool, isInWatchlist: bool): (h: Header)
    ensures h.liveDot <==> isRealTime && liveUpdatesEnabled
    ensures h.icon.Some? <==> assetType.Some? && assetType.value != ""
    ensures h.icon.Some? ==> h.icon.value == AssetIconAsWritten(assetType)
    ensures h.watchIcon == Minus <==> isInWatchlist
    ensures h.watchClass == (if isInWatchlist then "text-red-500" else "text-green-500")
    ensures h.pinClass == (if isPinned then "text-yellow-500" else "text-muted-foreground")
    ensures h.title == StripExchange(symbol)
  {
    Header(isRealTime && liveUpdatesEnabled,
      if assetType.Some? && assetType.value != "" then Some(AssetIconAsWritten(assetType)) else None,
      if isPinned then "text-yellow-500" else "text-muted-foreground",
      if isInWatchlist then Minus else Plus,
      if isInWatchlist then "text-red-500" else "text-green-500",
      StripExchange(symbol))
  }
}
