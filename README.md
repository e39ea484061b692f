# invest-iq: a verified model of the dashboard's logic

invest-iq is a React dashboard for following stocks, global equities, ETFs and
crypto pairs. It shows live quote cards, a watchlist, a news feed, a trading
diary, a drag-and-drop asset comparison and an AI chat assistant. This project
models in Dafny the deterministic logic behind those screens and proves what
that logic promises. Rendering, timers and the network are left out.

The model consists of:

- **Quote poller** (`RealTimeUpdates`): the quote poller of `useRealTimeUpdates`, covering:
  - batching into tens;
  - collecting the quotes whose fetch succeeds;
  - the merge over the cached map;
  - the `priceChanged` events;
  - the polling on/off rule and the interval and mounted references.
- **Asset comparison** (`Comparison`, `LegacyComparison`): the selection in both versions of the comparison panel, covering:
  - add by drag-drop, remove and clear;
  - the 2–3 guard before comparing;
  - the case-insensitive category search.
- **AI assistant** (`AIAssistant`, `OpenRouterApi`): the assistant's symbol scanner, asset classification, branch precedence and prompt template, plus `handleSend`. Also the chat client's canned replies and its choice of reply.
- **Market-data client** (`FinnhubApi`): the mock quote table, the endpoint and URL strings, and `fetchData`'s error propagation.
- **Stock cards** (`StockCardState`, `StockCardHeader`, `StockCardPrice`): the card's watchlist and pin toggles on stored lists and its price-direction rules. Also the header (icons, exchange-prefix stripping) and the price view (sign and highlight rules).
- **Watchlist, asset section, diary and news** (`Watchlist`, `AssetSection`, `Diary`, `News`):
  - the watchlist page;
  - the "show more" pager;
  - diary tag parsing, the form and mood styling;
  - the news merge, stable sort and tab filter.
- **Settings, currency and sign-in** (`UserSettings`, `Currency`, `AuthModal`):
  - user settings: defaults, the load mapping, save and commit-on-success, sign-out reset;
  - the currency context;
  - the sign-in dialog's error messages and loading and close behaviour.

`Strings` and `Seqs` hold the JavaScript string and array operations the
code relies on: `toLowerCase`/`toUpperCase` on ASCII, `includes`, `trim`,
`split`, `filter`, flattening.

State that the source mutates is given as classes:

| class | source state |
|---|---|
| `Poller` | the poller hook |
| `ComparisonPanel`, `LegacyPanel` | the two comparison panels |
| `ChatPanel` | the chat panel |
| `StockCard`, `Storage` | the card and the browser's local storage |
| `WatchlistPage` | the watchlist page |
| `Section` | the pager |
| `DiaryForm` | the diary form |
| `SettingsHook` | the settings hook |
| `CurrencyProvider` | the currency provider |
| `Dialog` | the sign-in dialog |

Each method's `ensures` clause states the whole new state, either directly or
through a specification function, on every path. The properties are proved as lemmas about
those functions.

External inputs become parameters:

- **Network and database outcomes** are parameters: `fetch`, `ChatOutcome`, `Response`, `LoadOutcome`, `upsertOk` and the `error` arguments of the dialog.
- **Stored values:** the values read from local storage are a parameter, or the `Storage` object.
- **Number formatting:** `toFixed` is the parameter `fmt`.
- **Time:** the clock is the parameter `now`.

## Notes on the code

- **Errors propagate.** `fetchData` rethrows every error (src/utils/finnhubAPI.ts:74-77). Its API methods therefore yield an error, not a substitute quote. Only the chat client falls back to canned text.
- **The quote cache is merged, not rebuilt.** `{ ...prevQuotes, ...allQuotes }` keeps every cached key, so nothing is ever pruned.
- **No fallback quote in the hooks.** The quote source the hooks use (`getMockQuote`) cannot fail, so no fallback path exists there (`MockFetchNeverFails`).
- **The watchlist adds the untrimmed symbol.** It appends the upper-cased input as typed; only the blank test trims.

## Model

| member | source | states |
|---|---|---|
| RealTimeUpdates.MakeBatches | src/hooks/useRealTimeUpdates.tsx:51-56 | batch k is `symbols.slice(10k, 10k+10)`; there are ceil(n/10) batches; concatenated they give back the input in order; every batch holds 1 to 10 symbols and all but the last hold exactly 10 |
| RealTimeUpdates.BatchSizes | src/hooks/useRealTimeUpdates.tsx:54-56 | any slicing into tens has non-empty batches of at most ten, and all but the last are full |
| RealTimeUpdates.BatchCount | src/hooks/useRealTimeUpdates.tsx:54 | the loop's batch count is ceil(n/10) |
| RealTimeUpdates.DelayAfter | src/hooks/useRealTimeUpdates.tsx:79-82 | the pause test `batches.indexOf(batch) < batches.length - 1`: `indexOf` compares by reference and each batch is a fresh slice, so there is a pause after batch k iff k is not the last batch |
| RealTimeUpdates.DelaysIn | src/hooks/useRealTimeUpdates.tsx:60-83 | the pauses over the first k batches number at most k |
| RealTimeUpdates.DelaysBetweenBatches | src/hooks/useRealTimeUpdates.tsx:79-82 | over all batches there is one pause fewer than batches, and none after the last |
| RealTimeUpdates.Fetched | src/hooks/useRealTimeUpdates.tsx:61-77 | `allQuotes` holds exactly the symbols whose fetch succeeds, each with its fetched quote |
| RealTimeUpdates.FetchedKeys | src/hooks/useRealTimeUpdates.tsx:90 | `Object.keys(allQuotes)` lists each fetched symbol exactly once and nothing else |
| RealTimeUpdates.StoreBatch | src/hooks/useRealTimeUpdates.tsx:72-77 | the `forEach` over one batch's results extends the record and its key order to cover the batch |
| RealTimeUpdates.CollectQuotes | src/hooks/useRealTimeUpdates.tsx:60-83 | the batch loop's record covers every symbol of every batch; it pauses after every batch for which the test of line 80 holds |
| RealTimeUpdates.Merge | src/hooks/useRealTimeUpdates.tsx:87 | `{ ...prevQuotes, ...allQuotes }`: the fetched quotes over the cached map; what the merge keeps and overrides is `MergeOverrides` |
| RealTimeUpdates.MergeOverrides | src/hooks/useRealTimeUpdates.tsx:87 | the merged keys are the cached keys plus the fetched keys; fetched symbols take the new quote; all other entries are unchanged |
| RealTimeUpdates.Changes | src/hooks/useRealTimeUpdates.tsx:90-100 | at most one event per fetched key |
| RealTimeUpdates.ChangesOnePerSymbol | src/hooks/useRealTimeUpdates.tsx:90-103 | over distinct keys (as `Object.keys` gives them) every event names a key and no symbol is named by two events: one notification per changed symbol |
| RealTimeUpdates.ChangesExactly | src/hooks/useRealTimeUpdates.tsx:90-100 | an event (s, old, new) is emitted iff s is a fetched key with a cached quote and old.c ≠ new.c, and it carries both prices |
| RealTimeUpdates.EventForIff | src/hooks/useRealTimeUpdates.tsx:90-100 | some event names s iff s is among the keys and its cached price moved |
| RealTimeUpdates.ChangeEventIff | src/hooks/useRealTimeUpdates.tsx:90-100 | a symbol raises an event iff it was fetched this cycle, had a cached quote, and its price differs; first-time symbols raise nothing |
| RealTimeUpdates.DetectChanges | src/hooks/useRealTimeUpdates.tsx:90-100 | the event loop yields exactly the event sequence `Changes` |
| RealTimeUpdates.FailedFetchKeepsCache | src/hooks/useRealTimeUpdates.tsx:61-77 | a symbol whose fetch fails keeps its cached quote, and an uncached one stays absent |
| RealTimeUpdates.MockFetchNeverFails | src/hooks/useRealTimeUpdates.tsx:64 | with `getMockQuote` as the source every symbol is fetched |
| RealTimeUpdates.Cycle | src/hooks/useRealTimeUpdates.tsx:49-103 | one cycle: the merged map, the event sequence (no symbol named twice), and ceil(n/10)−1 pauses |
| RealTimeUpdates.ShouldPoll | src/hooks/useRealTimeUpdates.tsx:130 | `shouldStartPolling`: enabled, live updates on and a non-empty list; related to `isRealTimeEnabled` by `PollingIffRealTime` |
| RealTimeUpdates.RealTimeEnabled | src/hooks/useRealTimeUpdates.tsx:172 | `enabled && liveUpdatesEnabled`, the hook's `isRealTimeEnabled` |
| RealTimeUpdates.PollingIffRealTime | src/hooks/useRealTimeUpdates.tsx:130 | polling runs iff enabled ∧ live updates ∧ symbols ≠ []; this is `isRealTimeEnabled` plus a non-empty list |
| RealTimeUpdates.Poller.constructor | src/hooks/useRealTimeUpdates.tsx:23-32 | empty quotes, not loading, no update yet, mounted, no interval; live updates iff the stored value is "true" |
| RealTimeUpdates.Poller.FetchQuotes | src/hooks/useRealTimeUpdates.tsx:46-113 | behaviour of one fetch: <br>• an empty list or an unmounted hook changes nothing and emits nothing; <br>• otherwise the quotes become the merge and the events are `Changes`; <br>• loading ends false and the last update is now |
| RealTimeUpdates.Poller.SyncPolling | src/hooks/useRealTimeUpdates.tsx:123-149 | any running interval is cleared first; afterwards exactly one runs iff mounted and `shouldStartPolling` hold, otherwise none |
| RealTimeUpdates.Poller.SetLiveUpdates | src/hooks/useRealTimeUpdates.tsx:34-44 | the setting takes the event's value and polling is re-synchronised |
| RealTimeUpdates.Poller.SetProps | src/hooks/useRealTimeUpdates.tsx:115-149 | new symbols and enabled flag, with polling re-synchronised; when the symbols change, the initial-fetch effect's cycle is the `RefreshNow` that follows |
| RealTimeUpdates.Poller.RefreshNow | src/hooks/useRealTimeUpdates.tsx:162-166 | with no symbols or an unmounted hook, nothing changes and no event is raised; otherwise the quotes become the merge with the fetched ones, the events are `Changes` of the fetched keys, the last update is now and loading ends |
| RealTimeUpdates.Poller.Tick | src/hooks/useRealTimeUpdates.tsx:133-135 | without an interval nothing changes and no event is raised; with one (so polling should run and the list is non-empty) the quotes become the merge, the events are `Changes`, the last update is now and loading ends |
| RealTimeUpdates.Poller.Unmount | src/hooks/useRealTimeUpdates.tsx:152-160 | unmounted, no interval left, nothing else changed |
| RealTimeUpdates.Poller.IsRealTimeEnabled | src/hooks/useRealTimeUpdates.tsx:172 | the returned `isRealTimeEnabled` flag of the current props and setting |
| FinnhubApi.MockQuote | src/utils/finnhubAPI.ts:109-118 | `getMockQuote`: <br>• each of the five listed symbols gets its row; <br>• an unlisted symbol gets the default quote; <br>• every returned quote satisfies l ≤ c ≤ h and c = pc + d |
| FinnhubApi.MockQuoteApple | src/utils/finnhubAPI.ts:111 | AAPL gives c = 192.40 and dp = −0.69 |
| FinnhubApi.Endpoint | src/utils/finnhubAPI.ts:80-96 | a symbol endpoint is the path followed by the symbol |
| FinnhubApi.CompanyNewsEndpoint | src/utils/finnhubAPI.ts:91 | the company-news endpoint starts with "/company-news?symbol=" |
| FinnhubApi.SymbolOf | src/utils/finnhubAPI.ts:80-96 | a parsed symbol rebuilds the endpoint it came from |
| FinnhubApi.SymbolRoundTrip | src/utils/finnhubAPI.ts:80-96 | parsing an endpoint gives back its symbol |
| FinnhubApi.RequestUrl | src/utils/finnhubAPI.ts:69 | the URL is the base URL, then the endpoint, then "&token=", then the key |
| FinnhubApi.EndpointOf | src/utils/finnhubAPI.ts:69 | a parsed endpoint rebuilds the URL it came from |
| FinnhubApi.UrlRoundTrip | src/utils/finnhubAPI.ts:69 | parsing a request URL gives back its endpoint |
| FinnhubApi.FetchData | src/utils/finnhubAPI.ts:67-78 | errors propagate: <br>• success iff the response is OK with a body; <br>• a non-OK status gives an `ApiError` with that status; <br>• a network failure gives an error; <br>• no fallback value is ever returned |
| FinnhubApi.GetQuote | src/utils/finnhubAPI.ts:80-82 | requests "/quote?symbol=S"; succeeds iff the fetch did, with the fetched quote |
| FinnhubApi.GetCompanyProfile | src/utils/finnhubAPI.ts:84-86 | requests "/stock/profile2?symbol=S"; succeeds iff the fetch did |
| FinnhubApi.GetNewsSentiment | src/utils/finnhubAPI.ts:94-96 | requests "/news-sentiment?symbol=S"; succeeds iff the fetch did |
| FinnhubApi.GetRecommendations | src/utils/finnhubAPI.ts:104-106 | requests "/stock/recommendation?symbol=S"; succeeds iff the fetch did |
| FinnhubApi.GetCompanyNews | src/utils/finnhubAPI.ts:88-92 | requests the company-news endpoint with both dates; succeeds iff the fetch did |
| OpenRouterApi.MockChoicePrecedence | src/utils/openRouterAPI.ts:68-88 | the lowercased message is matched against the keyword groups in order: aapl/apple, tesla/tsla, market/today, buy/invest, then generic; each reply is chosen iff no earlier group matches and its own does |
| OpenRouterApi.MockChoice | src/utils/openRouterAPI.ts:68-88 | which canned reply `getMockResponse` picks for a message; its order and case rules are `MockChoicePrecedence` and `MockChoiceIgnoresCase` |
| OpenRouterApi.MockResponse | src/utils/openRouterAPI.ts:68-88 | `getMockResponse`: the text of the chosen canned reply |
| OpenRouterApi.MockChoiceIgnoresCase | src/utils/openRouterAPI.ts:69 | lowercasing the message first does not change the reply |
| OpenRouterApi.AppleBeforeTesla | src/utils/openRouterAPI.ts:71-77 | a message naming both Apple and Tesla gets the Apple reply |
| OpenRouterApi.EmptyMessageGeneric | src/utils/openRouterAPI.ts:87 | the empty message gets the generic reply |
| OpenRouterApi.LastContent | src/utils/openRouterAPI.ts:64 | the last message's content, or "" for no messages |
| OpenRouterApi.Chat | src/utils/openRouterAPI.ts:36-66 | possible replies: <br>• an OK completion with content gives that content; <br>• a missing or empty content gives "Sorry, I could not generate a response."; <br>• any failure gives the canned reply for the last message |
| OpenRouterApi.EmptyConversationFallback | src/utils/openRouterAPI.ts:60-64 | a failed chat with no messages gives the generic reply |
| AIAssistant.UpperRun | src/components/AIAssistant.tsx:35 | the maximal run of capitals starting at i |
| AIAssistant.MatchLength | src/components/AIAssistant.tsx:35 | a match starting at i stays inside the text |
| AIAssistant.MatchIsToken | src/components/AIAssistant.tsx:35 | a match is 1–5 capitals, or capitals ':' capitals, between word boundaries |
| AIAssistant.ExtractFrom | src/components/AIAssistant.tsx:35 | the global scan from position i: a match is taken and the scan resumes after it, otherwise it moves on by one; `ExtractedAreTokens` states what it yields |
| AIAssistant.ExtractSymbols | src/components/AIAssistant.tsx:35 | `userMessage.match(...) \|\| []`: every returned symbol is a symbol token that occurs in the message |
| AIAssistant.ExtractedAreTokens | src/components/AIAssistant.tsx:35 | every extracted symbol is such a token and occurs in the message |
| AIAssistant.TokensOfEach | src/components/AIAssistant.tsx:35 | each entry of an extracted list is a symbol token that `includes` finds in the message |
| AIAssistant.NoCapitalsNoSymbolsFrom | src/components/AIAssistant.tsx:35 | a text without capitals has no matches from any position |
| AIAssistant.NoCapitalsNoSymbols | src/components/AIAssistant.tsx:35 | a message with no capitals yields no symbols |
| AIAssistant.Classify | src/components/AIAssistant.tsx:50-52 | the ordered test: "BINANCE:" gives Crypto; otherwise ':' gives Global; otherwise the ETF list gives ETF; otherwise US, each as an iff |
| AIAssistant.MarketSample | src/components/AIAssistant.tsx:65-70 | the market sample is exactly [AAPL, GOOGL, NS:RELIANCE, SPY, BINANCE:BTCUSDT] |
| AIAssistant.SelectBranch | src/components/AIAssistant.tsx:46-47 | the symbol branch carries 1 to 5 symbols |
| AIAssistant.SelectBranchPrecedence | src/components/AIAssistant.tsx:46-92 | strict precedence, each branch as an iff: <br>• any extracted symbol (the first five, in order); <br>• else market/today; <br>• else crypto; <br>• else etf; <br>• else no data |
| AIAssistant.NoCapitalsKeywordBranch | src/components/AIAssistant.tsx:35-46 | a message without capitals never takes the symbol branch |
| AIAssistant.PlanFor | src/components/AIAssistant.tsx:46-92 | which piece each branch writes and for which symbols: the extracted ones, the market sample, the first three crypto pairs, the first three ETFs, or none |
| AIAssistant.Line | src/components/AIAssistant.tsx:54-58 | every appended piece starts on a new line |
| AIAssistant.Lines | src/components/AIAssistant.tsx:47-91 | the pieces of a branch, one per symbol in order; `AppendLines` proves the loops equal to it |
| AIAssistant.CryptoLineStripsPrefix | src/components/AIAssistant.tsx:84 | a crypto line for a "BINANCE:" pair is a new line, the pair without the prefix, ": $", the price, and the signed percentage in brackets |
| AIAssistant.CryptoBranchStripsPrefix | src/components/AIAssistant.tsx:80-86 | the same holds for each of the three pairs the crypto branch prints |
| AIAssistant.AppendLines | src/components/AIAssistant.tsx:47-91 | the `for` loops append one piece per symbol, in order |
| AIAssistant.MarketData | src/components/AIAssistant.tsx:43-92 | the `marketData` text: the pieces of the branch the message takes |
| AIAssistant.Prompt | src/components/AIAssistant.tsx:94-98 | the returned template around the market data and the question; its shape is `PromptShape` |
| AIAssistant.EnhancePrompt | src/components/AIAssistant.tsx:33-99 | the prompt is the template around the chosen branch's market data and the question |
| AIAssistant.PromptShape | src/components/AIAssistant.tsx:94-98 | every prompt starts with "Current Market Data:" and contains "User Question: " followed by the message |
| AIAssistant.PromptMentionsMarket | src/components/AIAssistant.tsx:94 | the lowercased prompt always contains "market" |
| AIAssistant.ChatRequest | src/components/AIAssistant.tsx:119-128 | two messages, the second being the user's prompt |
| AIAssistant.FallbackForPrompt | src/utils/openRouterAPI.ts:60-87 | a failed chat on an assistant prompt replies with the Apple, Tesla or market text, never the buy/invest or generic one |
| Strings.TrimsToEmpty | src/components/AIAssistant.tsx:102 | `!input.trim()` holds iff the input is all white space (the same test guards the diary form and the watchlist input) |
| AIAssistant.Respond | src/components/AIAssistant.tsx:115-150 | the request is the system prompt plus the enriched prompt; the reply is the chat result, or the apology when the call rejects |
| AIAssistant.AssistantText | src/components/AIAssistant.tsx:119-149 | the assistant's reply: the chat result when the call settles, the trouble message when it rejects |
| AIAssistant.ChatPanel.constructor | src/components/AIAssistant.tsx:22-31 | one welcome message, empty input, not loading |
| AIAssistant.ChatPanel.SetInput | src/components/AIAssistant.tsx:30 | only the input changes |
| AIAssistant.ChatPanel.Send | src/components/AIAssistant.tsx:101-154 | a blank input or a request in flight changes nothing; otherwise the user's message and exactly one assistant message are appended, the input is cleared and loading ends |
| AIAssistant.ChatPanel.Record | src/components/AIAssistant.tsx:111-152 | both messages appended, input cleared, loading off |
| Comparison.LookupName | src/components/AssetComparison/index.tsx:54 | `nameMap[symbol] \|\| symbol`: the mapped name when present and non-empty, otherwise the symbol |
| Comparison.AssetName | src/components/AssetComparison/index.tsx:34-55 | `getAssetName` over the panel's name table; stated by `AssetNameTable` |
| Comparison.AssetNameTable | src/components/AssetComparison/index.tsx:34-55 | `getAssetName` is the table entry for a listed symbol and the symbol itself otherwise |
| Comparison.AssetNameExamples | src/components/AssetComparison/index.tsx:36 | AAPL names "Apple Inc."; an unlisted symbol names itself |
| Comparison.Drop | src/components/AssetComparison/index.tsx:69-93 | outcomes, each as an iff: <br>• rejected iff 3 are selected, checked before duplicates; <br>• a duplicate is rejected iff there is room and the symbol is present; <br>• otherwise exactly one asset is appended at the end |
| Comparison.DropPreservesValid | src/components/AssetComparison/index.tsx:69-93 | a drop keeps "at most 3, no duplicate symbols" |
| Comparison.Remove | src/components/AssetComparison/index.tsx:103-105 | no entry with the symbol remains; every other entry is kept, and nothing new appears |
| Comparison.RemoveConcat | src/components/AssetComparison/index.tsx:104 | removal works entry by entry, so the kept entries keep their order |
| Comparison.RemoveAbsentSymbol | src/components/AssetComparison/index.tsx:104 | removing an absent symbol changes nothing |
| Comparison.RemoveUndoesDrop | src/components/AssetComparison/index.tsx:87-105 | removing a just-dropped asset restores the selection |
| Comparison.FilterKeepsDistinct | src/components/AssetComparison/index.tsx:104 | filtering keeps symbols distinct |
| Comparison.RemovePreservesValid | src/components/AssetComparison/index.tsx:103-105 | removal keeps "at most 3, no duplicate symbols" |
| Comparison.CompareNeedsTwo | src/components/AssetComparison/index.tsx:128 | on a valid selection, comparing is allowed iff at least two are selected |
| Comparison.CompareAllowed | src/components/AssetComparison/index.tsx:128 | the negation of the guard `length < 2 \|\| length > 3`: two or three assets |
| Comparison.FilterCategories | src/components/AssetComparison/index.tsx:189-198 | no more categories than given, and no kept category is empty |
| Comparison.Matches | src/components/AssetComparison/index.tsx:190-193 | the search test: the lowercased term occurs in the lowercased symbol or in its lowercased name |
| Comparison.Restrict | src/components/AssetComparison/index.tsx:190-193 | a category with only its matching assets, in order |
| Comparison.FilterCategoriesExactly | src/components/AssetComparison/index.tsx:189-198 | a category is in the result iff it is some input category restricted to its matches and that restriction is non-empty |
| Comparison.KeptIffMatches | src/components/AssetComparison/index.tsx:190-193 | an asset is kept iff the lowercased term occurs in its lowercased symbol or name |
| Comparison.EmptyTermKeepsAll | src/components/AssetComparison/index.tsx:189-198 | the empty term keeps every non-empty category whole |
| Comparison.CategoriesNonEmpty | src/components/AssetComparison/AssetCategories.tsx:22-43 | every category of the table has assets |
| Comparison.ComparisonPanel.constructor | src/components/AssetComparison/index.tsx:27-31 | empty selection, term and response; not loading |
| Comparison.ComparisonPanel.HandleDrop | src/components/AssetComparison/index.tsx:61-101 | an unparsable payload changes nothing; otherwise the selection and toast follow `Drop`; the invariant holds |
| Comparison.ComparisonPanel.RemoveAsset | src/components/AssetComparison/index.tsx:103-105 | the selection becomes `Remove` of the old one; nothing else changes |
| Comparison.ComparisonPanel.ClearAll | src/components/AssetComparison/index.tsx:107-110 | selection and AI response both emptied |
| Comparison.ComparisonPanel.SetSearchTerm | src/components/AssetComparison/index.tsx:28 | only the term changes |
| Comparison.ComparisonPanel.HandleCompare | src/components/AssetComparison/index.tsx:127-187 | outside 2–3 assets, an "invalid selection" toast and nothing else changes; otherwise the response is the reply, or empty with a failure toast, and loading ends false |
| Comparison.ComparisonPanel.FilteredAssets | src/components/AssetComparison/index.tsx:189-198 | the shown categories are all non-empty |
| LegacyComparison.LegacyTablesAgree | src/components/AssetComparison.tsx:21-73 | the older panel's name map and categories equal the newer ones, so names and search results agree |
| LegacyComparison.LegacyAssetName | src/components/AssetComparison.tsx:52-73 | the older panel's `getAssetName`; equal to the newer one by `LegacyTablesAgree` |
| LegacyComparison.LegacyPanel.constructor | src/components/AssetComparison.tsx:44-49 | empty selection, term and response; not loading |
| LegacyComparison.LegacyPanel.HandleDrop | src/components/AssetComparison.tsx:79-119 | capacity is checked before duplicates; an accepted drop appends one asset; a bad payload changes nothing; the invariant holds |
| LegacyComparison.LegacyPanel.RemoveAsset | src/components/AssetComparison.tsx:121-123 | removes only the given symbol, keeping the order |
| LegacyComparison.LegacyPanel.ClearAll | src/components/AssetComparison.tsx:125-128 | an empty selection and an empty response |
| LegacyComparison.LegacyPanel.HandleCompare | src/components/AssetComparison.tsx:145-153 | comparing requires 2 to 3 selected; otherwise nothing changes |
| LegacyComparison.LegacyPanel.FilteredAssets | src/components/AssetComparison.tsx:209-218 | empty categories are omitted |
| StockCardState.Storage.constructor | src/hooks/useStockCardState.tsx:68 | local storage holds the given lists |
| StockCardState.Stored | src/hooks/useStockCardState.tsx:68 | `JSON.parse(getItem(key) \|\| '[]')`: the stored list, or [] when absent |
| StockCardState.Toggled | src/hooks/useStockCardState.tsx:88-95 | the toggle's effect on the list: <br>• a member toggle removes every occurrence, keeps all other items and adds none; <br>• otherwise the symbol is appended, even if already stored |
| StockCardState.ToggleRoundTrip | src/hooks/useStockCardState.tsx:89-93 | from a list without the symbol, add then remove restores the list |
| StockCardState.RemoveFromListWithout | src/hooks/useStockCardState.tsx:89 | removing an absent symbol leaves the list as it was |
| StockCardState.RemoveKeepsOrder | src/hooks/useStockCardState.tsx:89 | removal keeps the remaining items in order |
| StockCardState.ToggleStore | src/hooks/useStockCardState.tsx:84-96 | only the toggled key changes, and it holds the toggled list |
| StockCardState.ToggleStoreRoundTrip | src/hooks/useStockCardState.tsx:84-96 | toggling on and off again restores the stored list when the symbol was absent |
| StockCardState.TogglesIndependent | src/hooks/useStockCardState.tsx:84-110 | the watchlist toggle never touches "pinnedAssets", nor the pin toggle "watchlist" |
| StockCardState.ArrivalDirection | src/hooks/useStockCardState.tsx:20-26 | a direction is set iff both prices are truthy and differ: 'up' iff new > old, 'down' iff new < old |
| StockCardState.EventDirection | src/hooks/useStockCardState.tsx:45 | 'up' iff newPrice > oldPrice, otherwise 'down' |
| StockCardState.StockCard.constructor | src/hooks/useStockCardState.tsx:12-16 | the quote is the external one; loading iff there is none; not listed, not pinned, no highlight |
| StockCardState.StockCard.SyncExternalQuote | src/hooks/useStockCardState.tsx:19-37 | an external quote is adopted and loading ends; with live updates the direction follows `ArrivalDirection`, without them it is cleared |
| StockCardState.StockCard.ReceiveQuote | src/hooks/useStockCardState.tsx:19-37 | a new external quote arrives and is synchronised |
| StockCardState.StockCard.HandlePriceChange | src/hooks/useStockCardState.tsx:40-54 | only a live card whose symbol matches changes, with `EventDirection` |
| StockCardState.StockCard.ClearHighlight | src/hooks/useStockCardState.tsx:26 | the highlight is cleared and nothing else changes |
| StockCardState.StockCard.InitialFetch | src/hooks/useStockCardState.tsx:57-82 | with an external quote nothing is fetched; otherwise the mock quote is taken, and the flags are "stored list contains symbol" for both keys |
| StockCardState.StockCard.ToggleWatchlist | src/hooks/useStockCardState.tsx:84-96 | stores `ToggleStore` on "watchlist" and flips the flag |
| StockCardState.StockCard.TogglePin | src/hooks/useStockCardState.tsx:98-110 | stores `ToggleStore` on "pinnedAssets" and flips the flag |
| Watchlist.AddStock | src/components/Watchlist.tsx:27-35 | rejected iff the input is blank after trimming or its upper case is already listed; otherwise {U, U + " Inc."} is appended, with U the untrimmed upper-cased input |
| Watchlist.InitialDistinct | src/components/Watchlist.tsx:8-15 | the initial symbols are distinct |
| Watchlist.AddPreservesDistinct | src/components/Watchlist.tsx:28-31 | adding keeps symbols distinct and the earlier entries in place |
| Watchlist.FilterWatchlist | src/components/Watchlist.tsx:22-25 | keeps an item iff the lowercased term occurs in its lowercased symbol or name |
| Watchlist.FilterKeepsOrder | src/components/Watchlist.tsx:22-25 | filtering preserves order |
| Watchlist.EmptySearchShowsAll | src/components/Watchlist.tsx:22-25 | the empty term shows the whole list |
| Watchlist.WatchlistPage.constructor | src/components/Watchlist.tsx:16-19 | the initial list with empty search and input |
| Watchlist.WatchlistPage.SetNewSymbol | src/components/Watchlist.tsx:19 | only the input changes |
| Watchlist.WatchlistPage.SetSearchTerm | src/components/Watchlist.tsx:18 | only the search term changes |
| Watchlist.WatchlistPage.HandleAddStock | src/components/Watchlist.tsx:27-35 | the list follows `AddStock`; the input is cleared only when a stock was added; distinctness is kept |
| Watchlist.WatchlistPage.FilteredWatchlist | src/components/Watchlist.tsx:22-25 | at most as many items as the watchlist |
| AssetSection.VisibleAssets | src/components/AssetSection.tsx:30 | the first min(displayCount, len) assets, in order |
| AssetSection.ShowMoreStep | src/components/AssetSection.tsx:32-40 | the two cases: <br>• Show Less gives (10, false); <br>• Show More gives min(old + 10, len), never fewer than before, and expanded iff the count reached len |
| AssetSection.StepKeepsInvariant | src/components/AssetSection.tsx:32-40 | with the button shown, 10 ≤ displayCount ≤ len and expanded iff displayCount = len are kept |
| AssetSection.Section.constructor | src/components/AssetSection.tsx:27-28 | displayCount is len if showAll else 10; expanded = showAll |
| AssetSection.Section.HandleShowMore | src/components/AssetSection.tsx:32-40 | the state follows `ShowMoreStep` and the pager invariant holds |
| AssetSection.Section.Visible | src/components/AssetSection.tsx:30 | while the button is shown, exactly displayCount assets are visible |
| AssetSection.AssetNameTable | src/components/AssetSection.tsx:42-95 | `getAssetName` gives the mapped name or the symbol itself |
| AssetSection.AssetName | src/components/AssetSection.tsx:42-95 | the section's `getAssetName`; stated by `AssetNameTable` |
| Diary.TrimEach | src/components/Diary.tsx:24 | each piece trimmed, in place |
| Diary.ParseTags | src/components/Diary.tsx:24 | `split(',').map(trim).filter(Boolean)`; its tags are stated by `TagsAreTrimmed`, `ParsedTagIff` and `ParseTagsKeepsOrder` |
| Diary.TagsAreTrimmed | src/components/Diary.tsx:24 | no parsed tag is empty or has white space at either end |
| Diary.PiecesAreTrimmed | src/components/Diary.tsx:24 | the same for any list of pieces |
| Diary.ParsedTagIff | src/components/Diary.tsx:24 | t is a tag iff t is non-empty and some comma-separated piece trims to t |
| Diary.TagsOfPieces | src/components/Diary.tsx:24 | the same for any list of pieces |
| Diary.SplitAtComma | src/components/Diary.tsx:24 | splitting at a comma splits the pieces of both sides |
| Diary.TrimEachConcat | src/components/Diary.tsx:24 | trimming works piece by piece |
| Diary.ParseTagsKeepsOrder | src/components/Diary.tsx:24 | tags keep the order of the input |
| Diary.CanSubmit | src/components/Diary.tsx:22 | an entry can be added iff neither the title nor the content is blank after trimming |
| Diary.SubmissionOf | src/components/Diary.tsx:23-26 | the entry carries the form's title, content, mood and the parsed tags |
| Diary.DiaryForm.constructor | src/components/Diary.tsx:13-19 | the empty form with mood 'neutral', hidden |
| Diary.DiaryForm.Edit | src/components/Diary.tsx:14-19 | only the draft changes |
| Diary.DiaryForm.SetShowForm | src/components/Diary.tsx:13 | only the visibility changes |
| Diary.DiaryForm.HandleAddEntry | src/components/Diary.tsx:21-31 | a blank title or content submits nothing; a successful add resets the form to {'', '', 'neutral', ''} and hides it; on failure the form is unchanged |
| Diary.StyleOf | src/components/Diary.tsx:33-53 | 'bullish' gives the green style, 'bearish' the red one, anything else (null included) the neutral one, each as an iff |
| Diary.MoodIconOf | src/components/Diary.tsx:33-42 | `getMoodIcon`: trending up in green, trending down in red, otherwise the calendar in blue |
| Diary.MoodColor | src/components/Diary.tsx:44-53 | `getMoodColor`: the green, red or blue border and background of the mood's case |
| Diary.MoodStylesAgree | src/components/Diary.tsx:33-53 | the icon and the colour pick the same case |
| Diary.MoodCountsBounded | src/components/Diary.tsx:210-222 | bullish days + bearish days ≤ entries |
| Diary.BullishDays | src/components/Diary.tsx:215 | the number of entries whose mood is 'bullish' |
| Diary.BearishDays | src/components/Diary.tsx:221 | the number of entries whose mood is 'bearish' |
| News.InsertPermutes | src/components/News.tsx:57 | inserting adds exactly the item |
| News.InsertKeepsOrder | src/components/News.tsx:57 | inserting into a newest-first list keeps it newest-first |
| News.SortPermutes | src/components/News.tsx:57 | the sorted feed is a permutation of its input |
| News.SortOrders | src/components/News.tsx:57 | the sorted feed has non-increasing datetimes |
| News.InsertStable | src/components/News.tsx:57 | insertion keeps items of equal time in their order |
| News.SortIsStable | src/components/News.tsx:57 | items with equal datetime keep their input order |
| News.SortByDate | src/components/News.tsx:57 | the stable newest-first sort, by insertion; stated by `SortPermutes`, `SortOrders` and `SortIsStable` |
| News.AllNews | src/components/News.tsx:53-57 | the three lists, a missing one empty, concatenated and sorted; stated by `AllNewsProperties` |
| News.AllNewsProperties | src/components/News.tsx:53-57 | `allNews` is a permutation of general ++ crypto ++ forex (missing lists empty), newest first, and stable on ties |
| News.FilteredNewsExactly | src/components/News.tsx:59-62 | for a category other than 'all', an item is kept iff its lowercased category equals the tab |
| News.FilteredNews | src/components/News.tsx:59-62 | the whole feed for 'all', otherwise the items of the tab's category; stated by `FilteredNewsExactly` |
| News.FilteredNewsKeepsOrder | src/components/News.tsx:59-62 | filtering preserves order |
| News.AllTabShowsEverything | src/components/News.tsx:60 | the 'all' tab shows the whole feed |
| News.CategoryColor | src/components/News.tsx:11-22 | case-insensitive: crypto gives orange, forex green, general blue and anything else gray, each as an iff |
| News.CategoryColorIgnoresCase | src/components/News.tsx:12 | the colour ignores letter case |
| UserSettings.OrString | src/hooks/useUserSettings.tsx:42-43 | `x \|\| fallback`: a non-empty value, otherwise the fallback |
| UserSettings.FromRow | src/hooks/useUserSettings.tsx:40-46 | how a row loads: <br>• theme and currency fall back on any falsy value; <br>• the booleans are false only when stored false, since `??` falls back only on null |
| UserSettings.EmptyRowGivesDefaults | src/hooks/useUserSettings.tsx:16-21 | null or empty fields load as {dark, USD, true, true} |
| UserSettings.Merge | src/hooks/useUserSettings.tsx:63 | supplied fields override; unspecified ones keep the current value |
| UserSettings.MergeLaws | src/hooks/useUserSettings.tsx:63 | an empty patch changes nothing; applying a patch twice equals once |
| UserSettings.IsLoadError | src/hooks/useUserSettings.tsx:36-38 | an error is logged iff there is a code other than PGRST116 |
| UserSettings.SettingsHook.constructor | src/hooks/useUserSettings.tsx:16-22 | starts at the defaults, not loading |
| UserSettings.SettingsHook.LoadSettings | src/hooks/useUserSettings.tsx:25-53 | behaviour of a load: <br>• signed out, nothing changes; <br>• a row is mapped with `FromRow`; <br>• no row or an error keeps the settings; <br>• loading ends |
| UserSettings.SettingsHook.SaveSettings | src/hooks/useUserSettings.tsx:56-86 | behaviour of a save: <br>• signed out gives false and changes nothing; <br>• otherwise the merge is written; <br>• the state becomes the merge only when the upsert succeeds, and the result says so |
| UserSettings.SettingsHook.UserChanged | src/hooks/useUserSettings.tsx:88-100 | signing out resets to the defaults; signing in loads |
| Currency.SymbolFor | src/hooks/useCurrency.tsx:12-18 | the table's symbol; "$" for an unknown code; never empty |
| Currency.SymbolExamples | src/hooks/useCurrency.tsx:15 | GBP gives "£"; an unknown code gives "$" |
| Currency.InitialCurrency | src/hooks/useCurrency.tsx:21-23 | the stored value, or "USD" when absent or empty |
| Currency.UseCurrency | src/hooks/useCurrency.tsx:39-44 | outside a provider it raises its error message; inside it returns the context |
| Currency.CurrencyProvider.constructor | src/hooks/useCurrency.tsx:21-23 | currency from storage |
| Currency.CurrencyProvider.SetCurrency | src/hooks/useCurrency.tsx:25-28 | both the state and the stored 'currency' become the new value |
| Currency.CurrencyProvider.Context | src/hooks/useCurrency.tsx:30 | the context carries the currency and its symbol |
| Currency.SetCurrencyPersists | src/hooks/useCurrency.tsx:21-28 | a stored non-empty currency is read back on the next start |
| StockCardHeader.IconsAsWrittenDiffer | src/components/StockCardHeader.tsx:18-24 | the icons as written differ from the category emoji of the comparison panel |
| StockCardHeader.AssetIconAsWritten | src/components/StockCardHeader.tsx:18-24 | `getAssetIcon` with the literals as they stand in the file; the icon is non-empty iff the type is 'us', 'global', 'etfs' or 'crypto' |
| StockCardHeader.AssetIcon | src/components/StockCardHeader.tsx:18-24 | the intended icons; the icon is non-empty iff the type is 'us', 'global', 'etfs' or 'crypto' |
| StockCardHeader.AssetIconMatchesCategories | src/components/StockCardHeader.tsx:18-24 | the corrected icon of each category key is that category's emoji |
| StockCardHeader.LeadingCapitals | src/components/StockCardHeader.tsx:87 | the maximal run of A–Z at the start |
| StockCardHeader.StripExchange | src/components/StockCardHeader.tsx:87 | the result is a suffix of the symbol |
| StockCardHeader.StripExchangeSpec | src/components/StockCardHeader.tsx:87 | a leading run of A–Z followed by ':' is dropped; a symbol without one is unchanged |
| StockCardHeader.StripExchangeExamples | src/components/StockCardHeader.tsx:87 | "TSE:7203" gives "7203"; "A:B:C" gives "B:C"; "AAPL" and "ab:C" are unchanged |
| StockCardHeader.View | src/components/StockCardHeader.tsx:36-90 | what the header shows: <br>• the live dot iff isRealTime ∧ live updates; <br>• the icon iff a type is given, and it is the icon as written; <br>• minus iff on the watchlist; <br>• the pin and watch classes; <br>• the stripped title |
| StockCardPrice.View | src/components/StockCardPrice.tsx:14-48 | the price view: <br>• positive iff dp ≥ 0, with 'profit' or 'loss' to match; <br>• green iff live ∧ 'up', red iff live ∧ 'down', never a highlight when live updates are off; <br>• the currency symbol prefixes price, high and low; <br>• the "+" depends on dp only |
| StockCardPrice.ChangePrefixIgnoresD | src/components/StockCardPrice.tsx:39 | with dp = 0 and d < 0 the change still reads "+" |
| AuthModal.OrDefault | src/components/Auth/AuthModal.tsx:49 | the message when non-empty, else the default |
| AuthModal.SignInErrorPrecedence | src/components/Auth/AuthModal.tsx:44-50 | in order: invalid credentials, then unconfirmed email, then the message itself, each as an iff |
| AuthModal.SignUpErrorPrecedence | src/components/Auth/AuthModal.tsx:66-74 | in order: already registered, short password, invalid email, then the message, each as an iff |
| AuthModal.SignInErrorText | src/components/Auth/AuthModal.tsx:44-50 | the error toast of a failed sign-in; its order is `SignInErrorPrecedence` |
| AuthModal.SignUpErrorText | src/components/Auth/AuthModal.tsx:66-74 | the error toast of a failed sign-up; its order is `SignUpErrorPrecedence` |
| AuthModal.EmptyMessageGetsDefault | src/components/Auth/AuthModal.tsx:49 | an empty message gets the default text |
| AuthModal.Dialog.constructor | src/components/Auth/AuthModal.tsx:20 | not loading, never closed |
| AuthModal.Dialog.BeginRequest | src/components/Auth/AuthModal.tsx:39 | loading is on during a call |
| AuthModal.Dialog.FinishSignIn | src/components/Auth/AuthModal.tsx:37-57 | an error shows its text and does not close; success shows the welcome toast and closes exactly once; loading ends either way |
| AuthModal.Dialog.FinishSignUp | src/components/Auth/AuthModal.tsx:59-81 | the same for sign-up |
| AuthModal.Dialog.FinishTwitter | src/components/Auth/AuthModal.tsx:26-35 | never closes; loading always ends; an error shows its message or the default |

## Left out

- Timers: `setInterval`, `setTimeout` and the 1000 ms pause are not modelled. Pauses and intervals are counted, not waited for. The 2 s highlight clear is the separate step `ClearHighlight`.
- Concurrency: `Promise.all` and the interleaving of asynchronous callbacks are not modelled. Each async handler runs to completion as one step, and the awaited calls are parameters.
- Browser events: the `CustomEvent` broadcast (`priceChanged`, `liveUpdatesChanged`) is a direct method call on the receiving object.
- The network, Supabase and local storage I/O are left out. Their outcomes are inputs, and storage is the `Storage` object or the value read.
- Number formatting: `toFixed` and `toLocaleString` are the uninterpreted parameter `fmt`. Prices are exact reals, not IEEE doubles.
- Object keys: the order JavaScript gives integer-like object keys is not modelled. `Object.keys(allQuotes)` is modelled as insertion order, and `Object.entries(assetCategories)` as the table's order.
- Unicode: strings are sequences of code points, not UTF-16 units.
- Case mapping: `toLowerCase`/`toUpperCase` map only ASCII letters.
- Object-literal lookups: in `getMockQuote`, the `nameMap` tables and `currencySymbols`, a key the table does not list is treated as missing. Inherited `Object.prototype` members (`constructor`, `toString`, `__proto__`) are not modelled; a lookup of such a key in the source yields that member rather than the default.
- AIAssistant.ExtractSymbols: the regular expression engine is not modelled. The scanner is derived by hand from the pattern, and only its ASCII behaviour is captured.
- Comparison.ComparisonPanel.HandleCompare: the text of the comparison prompt and `fetchAssetData` are not modelled. That text is free-form prose built from network data, so the chat reply is an input.
- JSON parsing: `JSON.parse` throwing on a corrupted stored list in the card toggles is not modelled. The stored value is taken to be a list.
- JSON payloads: a drag payload that fails to parse is `None`.
- AuthModal.Dialog.BeginRequest: "loading is true during the call" is modelled with `BeginRequest` as a separate step before the `Finish…` methods. The Supabase calls between them are not modelled.
- Presentation components: rendering, CSS animation classes and the search bar are not modelled. A few class names appear where the source chooses them by a rule.
- Secrets: the chat client's request headers and API key are not modelled.
- Dates: the default dates of `getCompanyNews` depend on the clock, so the dates are parameters.
- Candles: `getCandles` (src/utils/finnhubAPI.ts:97-101) is not modelled; no component of this model calls it.

## Findings

| source | as written | input that shows it | evidently intended | confidence | as-written member | corrected member |
|---|---|---|---|---|---|---|
| src/components/StockCardHeader.tsx:19-22 | the icons are UTF-8 emoji decoded as Windows-1252 (e.g. "ðŸ‡ºðŸ‡¸"), and the globe lost a byte | assetType 'us' shows the mojibake text, not the US flag | the category emoji the comparison panel uses | not executed | StockCardHeader.IconsAsWrittenDiffer | StockCardHeader.AssetIconMatchesCategories |
