/** The quote poller of src/hooks/useRealTimeUpdates.tsx: one `fetchQuotes`
    cycle (batches of ten, the quotes collected for the symbols whose fetch
    succeeds, the merge over the cached map, the price-change events), the
    polling on/off rule and the hook's mounted and interval references.
    Timers are counted, not waited for; the quote source is the parameter
    `fetch` (`None` where the per-symbol `try` would catch an error). */
module RealTimeUpdates {
  import opened Wrappers
  import opened Seqs
  import opened FinnhubApi

  /** `batchSize`. */
  const BatchSize: nat := 10

  // ---------------------------------------------------------------------
  // Batching.
  // ---------------------------------------------------------------------

  /** Batch `k` is the slice `symbols.slice(10 k, 10 k + 10)`. */
  predicate IsBatching(symbols: seq<string>, batches: seq<seq<string>>)
  {
    && |batches| == (|symbols| + BatchSize - 1) / BatchSize
    && forall k :: 0 <= k < |batches| ==>
         BatchSize * k < |symbols| && batches[k] == symbols[BatchSize * k..Min(BatchSize * k + BatchSize, |symbols|)]
  }

  /** `b` is the number of slices of ten that cover `n` items. */
  lemma BatchCount(n: nat, b: nat)
    requires n <= BatchSize * b
    requires b == 0 || BatchSize * (b - 1) < n
    ensures b == (n + BatchSize - 1) / BatchSize
  {
  }

  /** The batching loop of `fetchQuotes`. */
  method MakeBatches(symbols: seq<string>) returns (batches: seq<seq<string>>)
    ensures IsBatching(symbols, batches)
    ensures Flatten(batches) == symbols
    ensures forall k :: 0 <= k < |batches| ==> 1 <= |batches[k]| <= BatchSize
    ensures forall k :: 0 <= k < |batches| - 1 ==> |batches[k]| == BatchSize
  {
    batches := [];
    var i := 0;
    while i < |symbols|
      invariant i == BatchSize * |batches|
      invariant |batches| == 0 || BatchSize * (|batches| - 1) < |symbols|
      invariant forall k :: 0 <= k < |batches| ==>
        BatchSize * k < |symbols| && batches[k] == symbols[BatchSize * k..Min(BatchSize * k + BatchSize, |symbols|)]
      invariant Flatten(batches) == symbols[..Min(i, |symbols|)]
    {
      var batch := symbols[i..Min(i + BatchSize, |symbols|)];
      FlattenAppend(batches, batch);
      assert symbols[..Min(i + BatchSize, |symbols|)] == symbols[..i] + batch;
      batches := batches + [batch];
      i := i + BatchSize;
    }
    BatchCount(|symbols|, |batches|);
    assert symbols[..|symbols|] == symbols;
    BatchSizes(symbols, batches);
  }

  /** Every batch holds one to ten symbols, and all but the last hold ten. */
  lemma BatchSizes(symbols: seq<string>, batches: seq<seq<string>>)
    requires IsBatching(symbols, batches)
    ensures forall k :: 0 <= k < |batches| ==> 1 <= |batches[k]| <= BatchSize
    ensures forall k :: 0 <= k < |batches| - 1 ==> |batches[k]| == BatchSize
  {
    forall k | 0 <= k < |batches| - 1 ensures |batches[k]| == BatchSize {
      assert BatchSize * (k + 1) < |symbols|;
    }
  }

  // ---------------------------------------------------------------------
  // The inter-batch delay.
  // ---------------------------------------------------------------------

  /** `batches.indexOf(batch) < batches.length - 1` for the `k`-th batch of
      the loop: `indexOf` compares arrays by reference and every batch is a
      fresh `slice`, so it finds the batch at its own position `k`, and a
      pause follows every batch but the last. */
  function DelayAfter(batches: seq<seq<string>>, k: nat): (b: bool)
    requires k < |batches|
    ensures b <==> k + 1 < |batches|
  {
    k < |batches| - 1
  }

  /** The number of pauses taken after the first `k` batches. */
  function DelaysIn(batches: seq<seq<string>>, k: nat): (n: nat)
    requires k <= |batches|
    ensures n <= k
  {
    if k == 0 then 0 else DelaysIn(batches, k - 1) + (if DelayAfter(batches, k - 1) then 1 else 0)
  }

  /** There are exactly one fewer pauses than batches, none after the last. */
  lemma {:induction false} DelaysBetweenBatches(batches: seq<seq<string>>, k: nat)
    requires 0 < k <= |batches|
    ensures DelaysIn(batches, k) == if k == |batches| then k - 1 else k
  {
    if k > 1 {
      DelaysBetweenBatches(batches, k - 1);
    }
  }

  // ---------------------------------------------------------------------
  // Collecting: `allQuotes` as an ordered record.
  // ---------------------------------------------------------------------

  /** The quotes of the symbols whose fetch succeeds. */
  function Fetched(symbols: seq<string>, fetch: string -> Option<Quote>): (m: map<string, Quote>)
    ensures forall x :: x in m <==> x in symbols && fetch(x).Some?
    ensures forall x :: x in m ==> m[x] == fetch(x).value
  {
    if symbols == [] then map[]
    else
      var m := Fetched(symbols[..|symbols| - 1], fetch);
      var x := symbols[|symbols| - 1];
      assert forall y :: y in symbols <==> y in symbols[..|symbols| - 1] || y == x by {
        assert symbols == symbols[..|symbols| - 1] + [x];
      }
      if fetch(x).Some? then m[x := fetch(x).value] else m
  }

  /** `Object.keys(allQuotes)`: each fetched symbol once, in the order it
      was first stored. */
  function FetchedKeys(symbols: seq<string>, fetch: string -> Option<Quote>): (keys: seq<string>)
    ensures Distinct(keys)
    ensures forall x :: x in keys <==> x in symbols && fetch(x).Some?
  {
    if symbols == [] then []
    else
      var keys := FetchedKeys(symbols[..|symbols| - 1], fetch);
      var x := symbols[|symbols| - 1];
      assert forall y :: y in symbols <==> y in symbols[..|symbols| - 1] || y == x by {
        assert symbols == symbols[..|symbols| - 1] + [x];
      }
      if fetch(x).Some? && x !in keys then keys + [x] else keys
  }

  lemma FetchedSnoc(symbols: seq<string>, x: string, fetch: string -> Option<Quote>)
    ensures Fetched(symbols + [x], fetch) == if fetch(x).Some? then Fetched(symbols, fetch)[x := fetch(x).value] else Fetched(symbols, fetch)
    ensures FetchedKeys(symbols + [x], fetch) ==
      if fetch(x).Some? && x !in FetchedKeys(symbols, fetch) then FetchedKeys(symbols, fetch) + [x] else FetchedKeys(symbols, fetch)
  {
    assert (symbols + [x])[..|symbols|] == symbols;
  }

  lemma StoreStep(done: seq<string>, batch: seq<string>, j: nat, fetch: string -> Option<Quote>)
    requires j < |batch|
    ensures var seen := done + batch[..j]; var x := batch[j];
      && Fetched(done + batch[..j + 1], fetch) == (if fetch(x).Some? then Fetched(seen, fetch)[x := fetch(x).value] else Fetched(seen, fetch))
      && FetchedKeys(done + batch[..j + 1], fetch) ==
           (if fetch(x).Some? && x !in FetchedKeys(seen, fetch) then FetchedKeys(seen, fetch) + [x] else FetchedKeys(seen, fetch))
  {
    assert done + batch[..j + 1] == (done + batch[..j]) + [batch[j]];
    FetchedSnoc(done + batch[..j], batch[j], fetch);
  }

  /** `results.forEach` for one batch: each fetched quote is stored under
      its symbol, a failed one is skipped. */
  method StoreBatch(done: seq<string>, batch: seq<string>, fetch: string -> Option<Quote>,
                    allQuotes0: map<string, Quote>, keys0: seq<string>)
    returns (allQuotes: map<string, Quote>, keys: seq<string>)
    requires allQuotes0 == Fetched(done, fetch) && keys0 == FetchedKeys(done, fetch)
    ensures allQuotes == Fetched(done + batch, fetch)
    ensures keys == FetchedKeys(done + batch, fetch)
  {
    allQuotes, keys := allQuotes0, keys0;
    assert done + batch[..0] == done;
    for j := 0 to |batch|
      invariant allQuotes == Fetched(done + batch[..j], fetch)
      invariant keys == FetchedKeys(done + batch[..j], fetch)
    {
      var symbol := batch[j];
      StoreStep(done, batch, j, fetch);
      var result := fetch(symbol);
      if result.Some? {
        if symbol !in keys {
          keys := keys + [symbol];
        }
        allQuotes := allQuotes[symbol := result.value];
      }
    }
    assert batch[..|batch|] == batch;
  }

  /** The batch loop: every symbol of every batch is fetched, a failure is
      skipped, and the pauses are counted. */
  method CollectQuotes(batches: seq<seq<string>>, fetch: string -> Option<Quote>)
    returns (allQuotes: map<string, Quote>, keys: seq<string>, delays: nat)
    ensures allQuotes == Fetched(Flatten(batches), fetch)
    ensures keys == FetchedKeys(Flatten(batches), fetch)
    ensures delays == DelaysIn(batches, |batches|)
  {
    allQuotes, keys, delays := map[], [], 0;
    for b := 0 to |batches|
      invariant allQuotes == Fetched(Flatten(batches[..b]), fetch)
      invariant keys == FetchedKeys(Flatten(batches[..b]), fetch)
      invariant delays == DelaysIn(batches, b)
    {
      allQuotes, keys := StoreBatch(Flatten(batches[..b]), batches[b], fetch, allQuotes, keys);
      assert batches[..b + 1] == batches[..b] + [batches[b]];
      FlattenAppend(batches[..b], batches[b]);
      if DelayAfter(batches, b) {
        delays := delays + 1;
      }
    }
    assert batches[..|batches|] == batches;
  }

  // ---------------------------------------------------------------------
  // Merging and change events.
  // ---------------------------------------------------------------------

  /** `{ ...prevQuotes, ...allQuotes }`. */
  function Merge(prev: map<string, Quote>, current: map<string, Quote>): map<string, Quote>
  {
    prev + current
  }

  /** The merged keys are the cached ones plus the fetched ones (none is
      pruned); a fetched symbol takes its new quote and every other entry is
      unchanged. */
  lemma MergeOverrides(prev: map<string, Quote>, current: map<string, Quote>)
    ensures var m := Merge(prev, current);
      && m.Keys == prev.Keys + current.Keys
      && (forall x :: x in current ==> m[x] == current[x])
      && (forall x :: x in prev && x !in current ==> m[x] == prev[x])
  {
  }

  /** The detail of a 'priceChanged' event. */
  datatype PriceChange = PriceChange(symbol: string, oldPrice: real, newPrice: real)

  /** The events for `keys`, in order: one per symbol that had a cached
      quote whose price differs from the new one. */
  function Changes(keys: seq<string>, prev: map<string, Quote>, current: map<string, Quote>): (events: seq<PriceChange>)
    requires forall i :: 0 <= i < |keys| ==> keys[i] in current
    ensures |events| <= |keys|
  {
    if keys == [] then []
    else
      var rest := Changes(keys[..|keys| - 1], prev, current);
      var x := keys[|keys| - 1];
      if x in prev && prev[x].c != current[x].c then rest + [PriceChange(x, prev[x].c, current[x].c)] else rest
  }

  /** `oldQuote && newQuote && oldQuote.c !== newQuote.c`. */
  predicate Moved(x: string, prev: map<string, Quote>, current: map<string, Quote>)
  {
    x in prev && x in current && prev[x].c != current[x].c
  }

  /** The events are exactly the moved prices of cached symbols among `keys`,
      each carrying the old and the new price. */
  lemma {:induction false} ChangesExactly(keys: seq<string>, prev: map<string, Quote>, current: map<string, Quote>)
    requires forall i :: 0 <= i < |keys| ==> keys[i] in current
    ensures forall e :: e in Changes(keys, prev, current) <==>
      exists i :: 0 <= i < |keys| && Moved(keys[i], prev, current) && e == PriceChange(keys[i], prev[keys[i]].c, current[keys[i]].c)
  {
    if keys != [] {
      var init := keys[..|keys| - 1];
      ChangesExactly(init, prev, current);
      forall e ensures e in Changes(keys, prev, current) <==>
        exists i :: 0 <= i < |keys| && Moved(keys[i], prev, current) && e == PriceChange(keys[i], prev[keys[i]].c, current[keys[i]].c)
      {
        if exists i :: 0 <= i < |keys| && Moved(keys[i], prev, current) && e == PriceChange(keys[i], prev[keys[i]].c, current[keys[i]].c) {
          var i :| 0 <= i < |keys| && Moved(keys[i], prev, current) && e == PriceChange(keys[i], prev[keys[i]].c, current[keys[i]].c);
          if i < |init| {
            assert init[i] == keys[i];
          }
        }
        if e in Changes(init, prev, current) {
          var i :| 0 <= i < |init| && Moved(init[i], prev, current) && e == PriceChange(init[i], prev[init[i]].c, current[init[i]].c);
          assert keys[i] == init[i];
        }
      }
    }
  }

  /** Over distinct keys, each event names one of the keys and no symbol is
      named by two events: one notification per changed symbol. */
  lemma {:induction false} ChangesOnePerSymbol(keys: seq<string>, prev: map<string, Quote>, current: map<string, Quote>)
    requires forall i :: 0 <= i < |keys| ==> keys[i] in current
    requires Distinct(keys)
    ensures var events := Changes(keys, prev, current);
      && (forall e :: e in events ==> e.symbol in keys)
      && (forall i, j :: 0 <= i < j < |events| ==> events[i].symbol != events[j].symbol)
  {
    if keys != [] {
      var init := keys[..|keys| - 1];
      var x := keys[|keys| - 1];
      assert forall y :: y in init ==> y in keys;
      assert x !in init by {
        forall k | 0 <= k < |init| ensures init[k] != x {
          assert init[k] == keys[k];
        }
      }
      ChangesOnePerSymbol(init, prev, current);
      var rest := Changes(init, prev, current);
      var events := Changes(keys, prev, current);
      assert forall e :: e in rest ==> e.symbol != x;
      if x in prev && prev[x].c != current[x].c {
        var e := PriceChange(x, prev[x].c, current[x].c);
        assert events == rest + [e];
        forall i, j | 0 <= i < j < |events| ensures events[i].symbol != events[j].symbol {
          assert events[i] == rest[i];
          if j < |rest| {
            assert events[j] == rest[j];
          } else {
            assert rest[i] in rest;
          }
        }
      } else {
        assert events == rest;
      }
    }
  }

  /** Some event names `s`. */
  predicate HasEventFor(events: seq<PriceChange>, s: string)
  {
    exists e :: e in events && e.symbol == s
  }

  lemma EventForIff(keys: seq<string>, prev: map<string, Quote>, current: map<string, Quote>, s: string)
    requires forall i :: 0 <= i < |keys| ==> keys[i] in current
    ensures HasEventFor(Changes(keys, prev, current), s) <==> s in keys && Moved(s, prev, current)
  {
    var events := Changes(keys, prev, current);
    ChangesExactly(keys, prev, current);
    if HasEventFor(events, s) {
      var e :| e in events && e.symbol == s;
      var i :| 0 <= i < |keys| && Moved(keys[i], prev, current) && e == PriceChange(keys[i], prev[keys[i]].c, current[keys[i]].c);
    }
    if s in keys && Moved(s, prev, current) {
      var i :| 0 <= i < |keys| && keys[i] == s;
      assert PriceChange(s, prev[s].c, current[s].c) in events;
    }
  }

  /** A symbol raises an event exactly when it was fetched now, was cached
      before, and its price moved; first-time symbols raise none. */
  lemma ChangeEventIff(symbols: seq<string>, fetch: string -> Option<Quote>, prev: map<string, Quote>, s: string)
    ensures HasEventFor(Changes(FetchedKeys(symbols, fetch), prev, Fetched(symbols, fetch)), s) <==>
      (s in symbols && fetch(s).Some? && s in prev && prev[s].c != fetch(s).value.c)
  {
    EventForIff(FetchedKeys(symbols, fetch), prev, Fetched(symbols, fetch), s);
  }

  /** The `Object.keys(allQuotes).forEach` loop. */
  method DetectChanges(keys: seq<string>, prev: map<string, Quote>, current: map<string, Quote>) returns (events: seq<PriceChange>)
    requires forall i :: 0 <= i < |keys| ==> keys[i] in current
    ensures events == Changes(keys, prev, current)
  {
    events := [];
    for i := 0 to |keys|
      invariant events == Changes(keys[..i], prev, current)
    {
      var symbol := keys[i];
      assert keys[..i + 1][..i] == keys[..i];
      if symbol in prev && prev[symbol].c != current[symbol].c {
        events := events + [PriceChange(symbol, prev[symbol].c, current[symbol].c)];
      }
    }
    assert keys[..|keys|] == keys;
  }

  /** A symbol whose fetch failed keeps its cached quote, and an uncached
      one stays absent. */
  lemma FailedFetchKeepsCache(symbols: seq<string>, fetch: string -> Option<Quote>, prev: map<string, Quote>, s: string)
    requires fetch(s).None?
    ensures var m := Merge(prev, Fetched(symbols, fetch));
      (s in m <==> s in prev) && (s in prev ==> m[s] == prev[s])
  {
    MergeOverrides(prev, Fetched(symbols, fetch));
  }

  /** With the mock quotes every symbol is fetched. */
  lemma MockFetchNeverFails(symbols: seq<string>)
    ensures Fetched(symbols, s => Some(MockQuote(s))).Keys == set x | x in symbols
  {
  }

  /** The body of the `try` in `fetchQuotes` for a non-empty list: batch,
      collect, then merge over `prev` and detect the changes. */
  method Cycle(symbolsToFetch: seq<string>, prev: map<string, Quote>, fetch: string -> Option<Quote>)
    returns (merged: map<string, Quote>, events: seq<PriceChange>, delays: nat)
    requires symbolsToFetch != []
    ensures merged == Merge(prev, Fetched(symbolsToFetch, fetch))
    ensures events == Changes(FetchedKeys(symbolsToFetch, fetch), prev, Fetched(symbolsToFetch, fetch))
    ensures delays == (|symbolsToFetch| + BatchSize - 1) / BatchSize - 1
    ensures forall i, j :: 0 <= i < j < |events| ==> events[i].symbol != events[j].symbol
  {
    var batches := MakeBatches(symbolsToFetch);
    var allQuotes, keys;
    allQuotes, keys, delays := CollectQuotes(batches, fetch);
    DelaysBetweenBatches(batches, |batches|);
    forall i | 0 <= i < |keys| ensures keys[i] in allQuotes {
      assert keys[i] in keys;
    }
    events := DetectChanges(keys, prev, allQuotes);
    ChangesOnePerSymbol(keys, prev, allQuotes);
    merged := Merge(prev, allQuotes);
  }

  // ---------------------------------------------------------------------
  // Polling.
  // ---------------------------------------------------------------------

  /** `shouldStartPolling`. */
  function ShouldPoll(enabled: bool, liveUpdates: bool, symbols: seq<string>): bool
  {
    enabled && liveUpdates && |symbols| > 0
  }

  /** `isRealTimeEnabled`. */
  function RealTimeEnabled(enabled: bool, liveUpdates: bool): bool
  {
    enabled && liveUpdates
  }

  /** Polling runs exactly when real time is enabled and there is something
      to poll; real time itself does not look at the symbols. */
  lemma PollingIffRealTime(enabled: bool, liveUpdates: bool, symbols: seq<string>, other: seq<string>)
    ensures ShouldPoll(enabled, liveUpdates, symbols) <==> RealTimeEnabled(enabled, liveUpdates) && symbols != []
    ensures ShouldPoll(enabled, liveUpdates, [])  == false
  {
  }

  /** The hook's state: the quote map, the loading flag, the time of the last
      update, the two references and the live-updates setting. */
  class Poller {
    var symbols: seq<string>
    var enabled: bool
    var liveUpdatesEnabled: bool
    var quotes: map<string, Quote>
    var loading: bool
    var lastUpdate: Option<int>
    var mounted: bool
    /** How many intervals are running; `intervalRef` holds the last one. */
    var intervals: nat

    /** At most one interval runs, only while mounted, and only while
        polling should run. */
    predicate Valid()
      reads this
    {
      && intervals <= 1 && (!mounted ==> intervals == 0)
      && (intervals == 1 ==> ShouldPoll(enabled, liveUpdatesEnabled, symbols))
    }

    /** The hook's first render; `stored` is localStorage's 'liveUpdates'. */
    constructor(symbols: seq<string>, enabled: bool, stored: Option<string>)
      ensures Valid()
      ensures this.symbols == symbols && this.enabled == enabled
      ensures liveUpdatesEnabled == (stored == Some("true"))
      ensures quotes == map[] && !loading && lastUpdate == None && mounted && intervals == 0
    {
      this.symbols := symbols;
      this.enabled := enabled;
      liveUpdatesEnabled := stored == Some("true");
      quotes := map[];
      loading := false;
      lastUpdate := None;
      mounted := true;
      intervals := 0;
    }

    /** `fetchQuotes` run to completion at time `now`. */
    method FetchQuotes(symbolsToFetch: seq<string>, fetch: string -> Option<Quote>, now: int)
      returns (events: seq<PriceChange>, delays: nat)
      modifies this
      ensures symbolsToFetch == [] || !old(mounted) ==>
        events == [] && delays == 0 && quotes == old(quotes) && loading == old(loading) && lastUpdate == old(lastUpdate)
      ensures symbolsToFetch != [] && old(mounted) ==>
        && quotes == Merge(old(quotes), Fetched(symbolsToFetch, fetch))
        && events == Changes(FetchedKeys(symbolsToFetch, fetch), old(quotes), Fetched(symbolsToFetch, fetch))
        && delays == (|symbolsToFetch| + BatchSize - 1) / BatchSize - 1
        && !loading && lastUpdate == Some(now)
      ensures symbols == old(symbols) && enabled == old(enabled) && liveUpdatesEnabled == old(liveUpdatesEnabled)
      ensures mounted == old(mounted) && intervals == old(intervals)
    {
      events, delays := [], 0;
      if |symbolsToFetch| == 0 || !mounted {
        return;
      }
      loading := true;
      var merged;
      merged, events, delays := Cycle(symbolsToFetch, quotes, fetch);
      quotes := merged;
      lastUpdate := Some(now);
      loading := false;
    }

    /** The polling effect: any running interval is cleared first, then one
        is started when polling should run. */
    method SyncPolling()
      requires intervals <= 1
      modifies this
      ensures Valid()
      ensures intervals == (if mounted && ShouldPoll(enabled, liveUpdatesEnabled, symbols) then 1 else 0)
      ensures symbols == old(symbols) && enabled == old(enabled) && liveUpdatesEnabled == old(liveUpdatesEnabled)
      ensures quotes == old(quotes) && loading == old(loading) && lastUpdate == old(lastUpdate) && mounted == old(mounted)
    {
      if intervals > 0 {
        intervals := intervals - 1;
      }
      if mounted && ShouldPoll(enabled, liveUpdatesEnabled, symbols) {
        intervals := intervals + 1;
      }
    }

    /** A 'liveUpdatesChanged' event, followed by the polling effect it
        triggers. */
    method SetLiveUpdates(value: bool)
      requires Valid()
      modifies this
      ensures Valid()
      ensures liveUpdatesEnabled == value
      ensures intervals == (if mounted && ShouldPoll(enabled, value, symbols) then 1 else 0)
      ensures symbols == old(symbols) && enabled == old(enabled)
      ensures quotes == old(quotes) && loading == old(loading) && lastUpdate == old(lastUpdate) && mounted == old(mounted)
    {
      liveUpdatesEnabled := value;
      SyncPolling();
    }

    /** New props, followed by the polling effect. When the symbols change,
        the initial-fetch effect runs as well: that cycle is a `RefreshNow`
        that follows this call. */
    method SetProps(newSymbols: seq<string>, newEnabled: bool)
      requires Valid()
      modifies this
      ensures Valid()
      ensures symbols == newSymbols && enabled == newEnabled
      ensures intervals == (if mounted && ShouldPoll(newEnabled, liveUpdatesEnabled, newSymbols) then 1 else 0)
      ensures liveUpdatesEnabled == old(liveUpdatesEnabled)
      ensures quotes == old(quotes) && loading == old(loading) && lastUpdate == old(lastUpdate) && mounted == old(mounted)
    {
      symbols := newSymbols;
      enabled := newEnabled;
      SyncPolling();
    }

    /** `refreshNow`, and equally the initial-fetch effect: a cycle over the
        hook's symbols when there are any. */
    method RefreshNow(fetch: string -> Option<Quote>, now: int) returns (events: seq<PriceChange>)
      modifies this
      ensures symbols == [] || !old(mounted) ==>
        events == [] && quotes == old(quotes) && loading == old(loading) && lastUpdate == old(lastUpdate)
      ensures symbols != [] && old(mounted) ==>
        && quotes == Merge(old(quotes), Fetched(symbols, fetch))
        && events == Changes(FetchedKeys(symbols, fetch), old(quotes), Fetched(symbols, fetch))
        && lastUpdate == Some(now) && !loading
      ensures symbols == old(symbols) && mounted == old(mounted) && intervals == old(intervals)
      ensures enabled == old(enabled) && liveUpdatesEnabled == old(liveUpdatesEnabled)
    {
      events := [];
      if |symbols| > 0 {
        var delays;
        events, delays := FetchQuotes(symbols, fetch, now);
      }
    }

    /** One interval callback: a cycle runs only while an interval is set. */
    method Tick(fetch: string -> Option<Quote>, now: int) returns (events: seq<PriceChange>)
      requires Valid()
      modifies this
      ensures Valid()
      ensures old(intervals) == 0 ==>
        events == [] && quotes == old(quotes) && loading == old(loading) && lastUpdate == old(lastUpdate)
      ensures old(intervals) > 0 ==>
        && quotes == Merge(old(quotes), Fetched(symbols, fetch))
        && events == Changes(FetchedKeys(symbols, fetch), old(quotes), Fetched(symbols, fetch))
        && lastUpdate == Some(now) && !loading
      ensures symbols == old(symbols) && mounted == old(mounted) && intervals == old(intervals)
      ensures enabled == old(enabled) && liveUpdatesEnabled == old(liveUpdatesEnabled)
    {
      events := [];
      if intervals > 0 {
        var delays;
        events, delays := FetchQuotes(symbols, fetch, now);
      }
    }

    /** The unmount cleanup: the hook is no longer mounted and no interval
        runs, so later cycles change nothing. */
    method Unmount()
      modifies this
      ensures Valid()
      ensures !mounted && intervals == 0
      ensures symbols == old(symbols) && enabled == old(enabled) && liveUpdatesEnabled == old(liveUpdatesEnabled)
      ensures quotes == old(quotes) && loading == old(loading) && lastUpdate == old(lastUpdate)
    {
      mounted := false;
      intervals := 0;
    }

    /** `isRealTimeEnabled`. */
    function IsRealTimeEnabled(): bool
      reads this
    {
      RealTimeEnabled(enabled, liveUpdatesEnabled)
    }
  }
}
