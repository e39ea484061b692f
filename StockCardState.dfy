/** The per-card state of src/hooks/useStockCardState.tsx: the quote and
    its loading flag, the price-change highlight, and the watchlist and pin
    toggles over the two lists kept in the browser's storage. */
module StockCardState {
  import opened Wrappers
  import opened Seqs
  import opened FinnhubApi

  const WatchlistKey: string := "watchlist"
  const PinnedKey: string := "pinnedAssets"

  /** The browser's storage as the parsed lists it holds under each key. */
  class Storage {
    var lists: map<string, seq<string>>

    constructor(lists: map<string, seq<string>>)
      ensures this.lists == lists
    {
      this.lists := lists;
    }
  }

  /** `JSON.parse(localStorage.getItem(key) || '[]')`: a missing key reads
      as the empty list. */
  function Stored(lists: map<string, seq<string>>, key: string): (r: seq<string>)
    ensures key !in lists ==> r == []
    ensures key in lists ==> r == lists[key]
  {
    if key in lists then lists[key] else []
  }

  /** The list a toggle writes back: without every occurrence of the
      symbol when the card shows it as a member, with the symbol appended
      otherwise (even when it is already stored). */
  function Toggled(list: seq<string>, symbol: string, member: bool): (r: seq<string>)
    ensures member ==> symbol !in r && |r| <= |list|
    ensures member ==> forall i :: 0 <= i < |list| && list[i] != symbol ==> list[i] in r
    ensures member ==> forall i :: 0 <= i < |r| ==> r[i] in list
    ensures !member ==> |r| == |list| + 1 && r[..|list|] == list && r[|list|] == symbol
  {
    if member then RemoveAll(list, symbol) else list + [symbol]
  }

  /** Adding a symbol the stored list lacks and removing it again restores
      the stored list. */
  lemma ToggleRoundTrip(list: seq<string>, symbol: string)
    requires symbol !in list
    ensures Toggled(Toggled(list, symbol, false), symbol, true) == list
  {
    RemoveAfterAppend(list, symbol);
  }

  /** Removing from a list that lacks the symbol changes nothing. */
  lemma RemoveFromListWithout(list: seq<string>, symbol: string)
    requires symbol !in list
    ensures Toggled(list, symbol, true) == list
  {
    RemoveAbsent(list, symbol);
  }

  /** Removal keeps the other entries in their order. */
  lemma RemoveKeepsOrder(a: seq<string>, b: seq<string>, symbol: string)
    ensures Toggled(a + b, symbol, true) == Toggled(a, symbol, true) + Toggled(b, symbol, true)
  {
    RemoveAllConcat(a, b, symbol);
  }

  /** The storage after a toggle under `key`: that key holds the toggled
      list and every other key is untouched. */
  function ToggleStore(lists: map<string, seq<string>>, key: string, symbol: string, member: bool): (r: map<string, seq<string>>)
    ensures r.Keys == lists.Keys + {key}
    ensures r[key] == Toggled(Stored(lists, key), symbol, member)
    ensures forall k :: k in lists && k != key ==> r[k] == lists[k]
  {
    lists[key := Toggled(Stored(lists, key), symbol, member)]
  }

  datatype Direction = Up | Down

  /** JavaScript truthiness of a price that may be missing. */
  predicate Truthy(price: Option<real>)
  {
    price.Some? && price.value != 0.0
  }

  /** The highlight an arriving quote sets with live updates on: none unless
      both prices are truthy and differ, and then up exactly when the price
      rose. */
  function ArrivalDirection(oldPrice: Option<real>, newPrice: real): (r: Option<Direction>)
    ensures r.Some? <==> Truthy(oldPrice) && newPrice != 0.0 && oldPrice.value != newPrice
    ensures r == Some(Up) <==> Truthy(oldPrice) && newPrice != 0.0 && newPrice > oldPrice.value
    ensures r == Some(Down) <==> Truthy(oldPrice) && newPrice != 0.0 && newPrice < oldPrice.value
  {
    if Truthy(oldPrice) && newPrice != 0.0 && oldPrice.value != newPrice then
      Some(if newPrice > oldPrice.value then Up else Down)
    else None
  }

  /** The direction of a `priceChanged` event: up exactly when the new
      price is above the old one, down otherwise (equal prices included). */
  function EventDirection(oldPrice: real, newPrice: real): (r: Direction)
    ensures r == Up <==> newPrice > oldPrice
    ensures r == Down <==> newPrice <= oldPrice
  {
    if newPrice > oldPrice then Up else Down
  }

  function Price(q: Option<Quote>): Option<real>
  {
    if q.Some? then Some(q.value.c) else None
  }

  class StockCard {
    const symbol: string
    var externalQuote: Option<Quote>
    var liveUpdatesEnabled: bool
    var quote: Option<Quote>
    var loading: bool
    var isInWatchlist: bool
    var isPinned: bool
    var priceChanged: Option<Direction>

    /** The initial state: the external quote if any, loading until a quote
        is there, neither flag set, no highlight. */
    constructor(symbol: string, externalQuote: Option<Quote>, liveUpdatesEnabled: bool)
      ensures this.symbol == symbol && this.externalQuote == externalQuote
      ensures this.liveUpdatesEnabled == liveUpdatesEnabled
      ensures quote == externalQuote && loading == externalQuote.None?
      ensures !isInWatchlist && !isPinned && priceChanged == None
    {
      this.symbol := symbol;
      this.externalQuote := externalQuote;
      this.liveUpdatesEnabled := liveUpdatesEnabled;
      quote := externalQuote;
      loading := externalQuote.None?;
      isInWatchlist := false;
      isPinned := false;
      priceChanged := None;
    }

    /** The effect that adopts the external quote: with live updates on the
        highlight follows the price move, with them off it is cleared;
        without an external quote nothing happens. */
    method SyncExternalQuote()
      modifies this
      ensures old(externalQuote).None? ==>
        quote == old(quote) && loading == old(loading) && priceChanged == old(priceChanged)
      ensures old(externalQuote).Some? ==> quote == old(externalQuote) && !loading
      ensures old(externalQuote).Some? && old(liveUpdatesEnabled) ==>
        var d := ArrivalDirection(Price(old(quote)), old(externalQuote).value.c);
        priceChanged == (if d.Some? then d else old(priceChanged))
      ensures old(externalQuote).Some? && !old(liveUpdatesEnabled) ==> priceChanged == None
      ensures externalQuote == old(externalQuote) && liveUpdatesEnabled == old(liveUpdatesEnabled)
      ensures isInWatchlist == old(isInWatchlist) && isPinned == old(isPinned)
    {
      match externalQuote {
        case None =>
        case Some(q) =>
          if liveUpdatesEnabled {
            var d := ArrivalDirection(Price(quote), q.c);
            if d.Some? {
              priceChanged := d;
            }
          } else {
            priceChanged := None;
          }
          quote := externalQuote;
          loading := false;
      }
    }

    /** A new external quote arrives as a prop. */
    method ReceiveQuote(q: Quote)
      modifies this
      ensures externalQuote == Some(q) && quote == Some(q) && !loading
      ensures liveUpdatesEnabled ==>
        var d := ArrivalDirection(Price(old(quote)), q.c);
        priceChanged == (if d.Some? then d else old(priceChanged))
      ensures !liveUpdatesEnabled ==> priceChanged == None
      ensures liveUpdatesEnabled == old(liveUpdatesEnabled)
      ensures isInWatchlist == old(isInWatchlist) && isPinned == old(isPinned)
    {
      externalQuote := Some(q);
      SyncExternalQuote();
    }

    /** A `priceChanged` broadcast: heard only with live updates on, and
        acted on only when it names this card's symbol. */
    method HandlePriceChange(eventSymbol: string, oldPrice: real, newPrice: real)
      modifies this
      ensures liveUpdatesEnabled && eventSymbol == symbol ==>
        priceChanged == Some(EventDirection(oldPrice, newPrice))
      ensures !(liveUpdatesEnabled && eventSymbol == symbol) ==> priceChanged == old(priceChanged)
      ensures quote == old(quote) && loading == old(loading) && externalQuote == old(externalQuote)
      ensures liveUpdatesEnabled == old(liveUpdatesEnabled)
      ensures isInWatchlist == old(isInWatchlist) && isPinned == old(isPinned)
    {
      if liveUpdatesEnabled && eventSymbol == symbol {
        priceChanged := Some(EventDirection(oldPrice, newPrice));
      }
    }

    /** The timed reset of the highlight. */
    method ClearHighlight()
      modifies this
      ensures priceChanged == None
      ensures quote == old(quote) && loading == old(loading) && externalQuote == old(externalQuote)
      ensures liveUpdatesEnabled == old(liveUpdatesEnabled)
      ensures isInWatchlist == old(isInWatchlist) && isPinned == old(isPinned)
    {
      priceChanged := None;
    }

    /** The mount effect: without an external quote the card takes the mock
        quote and reads both flags from storage; loading ends false. */
    method InitialFetch(store: Storage)
      modifies this
      ensures old(externalQuote).Some? ==>
        quote == old(quote) && loading == old(loading)
        && isInWatchlist == old(isInWatchlist) && isPinned == old(isPinned)
      ensures old(externalQuote).None? ==>
        && quote == Some(MockQuote(symbol)) && !loading
        && (isInWatchlist <==> symbol in Stored(store.lists, WatchlistKey))
        && (isPinned <==> symbol in Stored(store.lists, PinnedKey))
      ensures externalQuote == old(externalQuote) && priceChanged == old(priceChanged)
      ensures liveUpdatesEnabled == old(liveUpdatesEnabled)
    {
      if externalQuote.Some? {
        return;
      }
      loading := true;
      quote := Some(MockQuote(symbol));
      isInWatchlist := symbol in Stored(store.lists, WatchlistKey);
      isPinned := symbol in Stored(store.lists, PinnedKey);
      loading := false;
    }

    /** `toggleWatchlist`: writes the toggled list back and flips the flag;
        the pinned list is not touched. */
    method ToggleWatchlist(store: Storage)
      modifies this, store
      ensures store.lists == ToggleStore(old(store.lists), WatchlistKey, symbol, old(isInWatchlist))
      ensures isInWatchlist == !old(isInWatchlist) && isPinned == old(isPinned)
      ensures quote == old(quote) && loading == old(loading) && priceChanged == old(priceChanged)
      ensures externalQuote == old(externalQuote) && liveUpdatesEnabled == old(liveUpdatesEnabled)
    {
      store.lists := ToggleStore(store.lists, WatchlistKey, symbol, isInWatchlist);
      isInWatchlist := !isInWatchlist;
    }

    /** `togglePin`: the same on the pinned list; the watchlist is not
        touched. */
    method TogglePin(store: Storage)
      modifies this, store
      ensures store.lists == ToggleStore(old(store.lists), PinnedKey, symbol, old(isPinned))
      ensures isPinned == !old(isPinned) && isInWatchlist == old(isInWatchlist)
      ensures quote == old(quote) && loading == old(loading) && priceChanged == old(priceChanged)
      ensures externalQuote == old(externalQuote) && liveUpdatesEnabled == old(liveUpdatesEnabled)
    {
      store.lists := ToggleStore(store.lists, PinnedKey, symbol, isPinned);
      isPinned := !isPinned;
    }
  }

  /** Toggling twice from a stored list without the symbol leaves the
      storage holding the same list under that key. */
  lemma ToggleStoreRoundTrip(lists: map<string, seq<string>>, key: string, symbol: string)
    requires symbol !in Stored(lists, key)
    ensures var once := ToggleStore(lists, key, symbol, false);
      Stored(ToggleStore(once, key, symbol, true), key) == Stored(lists, key)
  {
    ToggleRoundTrip(Stored(lists, key), symbol);
  }

  /** The two keys differ, so each toggle leaves the other list alone. */
  lemma TogglesIndependent(lists: map<string, seq<string>>, symbol: string, member: bool)
    ensures Stored(ToggleStore(lists, WatchlistKey, symbol, member), PinnedKey) == Stored(lists, PinnedKey)
    ensures Stored(ToggleStore(lists, PinnedKey, symbol, member), WatchlistKey) == Stored(lists, WatchlistKey)
  {
    assert WatchlistKey != PinnedKey by {
      assert WatchlistKey[0] != PinnedKey[0];
    }
  }
}
