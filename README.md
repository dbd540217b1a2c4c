# Crypto reports page: selection, caches and live chart

A model, in Dafny, of the logic inside `assets/js/app.js`, the single script of
a browser page that lists cryptocurrency market data, lets the user pin up to
five coins into a "reports" selection and draws a live price chart for them.
Four pieces of that script carry real rules, and each is a module here:

- **Selection** (`selection.dfy`): the persisted, ordered list of selected
  tickers and the `enableToggle` protocol: toggling a member removes it,
  toggling a non-member appends it while fewer than five are selected, a sixth
  coin is refused and opens the overflow prompt, and a switch of that prompt
  removes its member and admits the refused coin if absent.
- **Storage** (`storage.dfy`): the browser's `localStorage` as a class with the
  four keys the page uses; the read-through caches `getAllCoins` (reused while
  strictly less than 3 minutes old, both keys truthy) and `getSingleCoin`
  (reused while at most 2 minutes old), `initStorage`, and the selection's
  getters, setter and toggle. Time (`now`) and what a fetch would deliver are
  parameters; a rejected fetch is `Failed` and writes nothing.
- **Chart** (`chart.dfy`): the chart's `data` object (`labels` and one dataset
  per coin), `updateGraph` as a loop over the coins, and the module-level
  `chart`/`updateInterval` handles that `resetGraph` clears.
- **Filters** (`filters.dfy`): the search button's case-insensitive exact ticker
  match, the `checked` flag of each card's switch, and the "show only selected"
  visibility.

`base.dfy` holds the shared types and `text.dfy` the ASCII case mapping.

Each state-changing operation is a method on a class (`LocalStore`,
`ChartData`, `Feed`) proved against a pure function of the old state
(`ReadList`, `ReadDetail`, `Initialized`, `ToggleStored`, `Tick`), and the
properties are lemmas about those functions.

Where the design description and the code differ, the model follows the code:

- The chart code pushes one label per coin on every tick, and trims the labels
  and the current coin's dataset inside the per-coin loop. So the labels stay
  at 20 or fewer, but with `c` coins, dataset `j` keeps `min(n, Kept(c, j))`
  points after `n` ticks rather than `min(n, 20)` (`Chart.RunLengths`). Two
  coins stall at 10 points each (`Chart.TwoCoinsStallAtTen`). With three
  coins the datasets fall out of step (`Chart.ThreeCoinsMisaligned`). Only a
  single coin gets the 20-point window (`Chart.OneCoinWindow`).
- The listing's freshness test is strict (`< 3 min`) while the details' test
  is inclusive (`<= 2 min`).
- `generateGraph` itself does not stop a running chart; the reports tab calls
  `resetGraph` first. In the model, which takes chart construction to succeed
  (see "Left out"), calling it while a chart is polling leaves two timers
  running (`Chart.Feed.GenerateGraph`).
- The membership test of `enableToggle` is `find`, whose result is the ticker
  itself. An empty ticker is therefore treated as absent and can be appended
  twice (`Selection.EmptyTickerDuplicates`). The "at most five, no duplicates"
  invariant is proved for non-empty tickers.
- `initStorage` writes the empty string as the listing's time. That value is
  falsy, so the first listing read after it always fetches
  (`Storage.FirstVisitFetches`).

## Model

| member | source | states |
|---|---|---|
| `Selection.Found` | assets/js/app.js:275 | the truthiness of `find`'s result: the ticker is present and is not the empty string (no contract of its own; the toggle lemmas state its consequences) |
| `Selection.IndexOf` | assets/js/app.js:278 | `findIndex` for a present ticker is the first position holding it |
| `Selection.Remove` | assets/js/app.js:278-279 | the splice leaves one entry fewer, all of them taken from the list |
| `Selection.RemoveOneOccurrence` | assets/js/app.js:278-279 | the splice takes out exactly one occurrence of the ticker, duplicates or not |
| `Selection.Without` | assets/js/app.js:278-279 | the reference for removal: keeps exactly the entries other than the ticker, in order |
| `Selection.Toggle` | assets/js/app.js:273-300 | the outcome is `Removed` iff the ticker is found, refused iff absent with exactly five selected (list kept, ticker pending), otherwise `Added` with the ticker appended; a removal never lengthens the list; every entry after it was in the list, is the toggled ticker or is the pending one |
| `Selection.RemoveIsWithout` | assets/js/app.js:278-279 | in a duplicate-free list, splicing out the first occurrence leaves every other entry in order, one fewer in all |
| `Selection.ToggleRemovesMember` | assets/js/app.js:274-280 | toggling a selected coin removes exactly that entry, keeps the others' order, switch ends off |
| `Selection.ToggleAppendsNonMember` | assets/js/app.js:295-296 | toggling an unselected coin with fewer than five selected appends it at the end, switch ends on |
| `Selection.ToggleRejectsAtCapacity` | assets/js/app.js:286-293 | toggling an unselected coin with exactly five selected keeps the list and refuses with that coin pending |
| `Selection.PromptToggleSwaps` | assets/js/app.js:277-284 | a prompt switch for member `m` with pending `f` removes `m` and appends `f` only if `f` is absent |
| `Selection.ToggleKeepsValid` | assets/js/app.js:273-300 | every toggle with a non-empty ticker keeps the list at most five long and duplicate-free |
| `Selection.EmptyTickerDuplicates` | assets/js/app.js:275-277 | the `find` test lets an empty ticker already selected be appended a second time |
| `Selection.ToggleTwiceRestores` | assets/js/app.js:273-300 | toggling a coin twice without overflow restores its membership and the selected set; an unselected coin leaves the very same list |
| `Selection.OverflowThenSwap` | assets/js/app.js:273-300 | with `[a,b,c,d,e]` selected, `f` is refused and the list kept; then the prompt switch `b` with pending `f` gives `[a,c,d,e,f]` |
| `Storage.Singles` | assets/js/app.js:28 | `getSinglesCoinInfo`'s value: the stored map, or `{}` when absent (no contract of its own; used by `Storage.LocalStore.GetSinglesCoinInfo`) |
| `Storage.EnabledCoins` | assets/js/app.js:51 | `getEnabledCoins`'s value: the stored list, or `[]` when absent (no contract of its own; used by `Storage.LocalStore.GetEnabledCoins`) |
| `Storage.ListFresh` | assets/js/app.js:16 | the hit test: both keys truthy, the time not blank, and under 3 minutes old (no contract of its own; `Storage.ReadList` and `Storage.ListRefreshWindow` state its role) |
| `Storage.DetailFresh` | assets/js/app.js:37 | the hit test: an entry exists and is at most 2 minutes old (no contract of its own; `Storage.ReadDetail` and `Storage.DetailRefreshWindow` state its role) |
| `Storage.Initialized` | assets/js/app.js:416-427 | after `initStorage` every key already present keeps its value and every absent key holds its default: `[]` for the listing, the blank time, `{}` for the details and `[]` for the selection |
| `Storage.Session` | assets/js/app.js:11-53 | a sequence of cache reads, initialisations and toggles applied in order (no contract of its own; `Storage.OnlyTogglesChangeSelection` and `Storage.SessionKeepsSelectionValid` are about it) |
| `Storage.ReadList` | assets/js/app.js:11-26 | no fetch iff both keys are truthy and the listing is under 3 minutes old, and then the stored listing is returned and the store left as it was; otherwise the fetch result is returned, and on success the store is the old one with the listing and `now` written to the two listing keys and nothing else; a failed fetch writes nothing |
| `Storage.ReadDetail` | assets/js/app.js:32-47 | no fetch iff the coin's entry is present and at most 2 minutes old, and then that stored entry is returned and the store left as it was; otherwise the fetch result is stamped with `now`, returned, and on success the store is the old one with that entry written under that coin alone; a failed fetch writes nothing; other coins' entries and the other keys never change |
| `Storage.ToggleStored` | assets/js/app.js:273-300 | the outcome and the new selection are those of `Selection.Toggle` on the stored selection; the list is written to the selection key alone, except after a refusal, which writes nothing |
| `Storage.ListRefreshWindow` | assets/js/app.js:16-25 | after a listing refresh at `now`, a read at `later` hits iff `later - now < 3 min`, and a hit returns the same data and leaves the store as it was |
| `Storage.DetailRefreshWindow` | assets/js/app.js:37-46 | after a detail refresh at `now`, a read of that coin at `later` hits iff `later - now <= 2 min`, returning the entry just stored |
| `Storage.CachesIndependent` | assets/js/app.js:11-47 | reading a coin's details never changes whether the listing or another coin is fresh, and reading the listing never changes any coin's freshness |
| `Storage.FirstVisitFetches` | assets/js/app.js:416-427 | on an empty store, `initStorage` writes `[]`, the blank time, `{}` and `[]`, and the next listing read goes to the network whatever the time |
| `Storage.InitKeepsReads` | assets/js/app.js:416-427 | `initStorage` is idempotent and, unless a listing time survives without its listing, changes no cache answer and not the selection |
| `Storage.InitServesEmptyListing` | assets/js/app.js:425 | when a listing time survives without its listing, `initStorage`'s default `[]` is served as a fresh listing |
| `Storage.OnlyTogglesChangeSelection` | assets/js/app.js:51-53 | any session of cache reads and initialisations leaves the selection unchanged |
| `Storage.SessionKeepsSelectionValid` | assets/js/app.js:273-300 | over any session of reads, initialisations and toggles with non-empty tickers, the stored selection stays at most five long and duplicate-free |
| `Storage.LocalStore.constructor` | assets/js/app.js:417-420 | the store holds whatever the four keys hold when the page loads |
| `Storage.LocalStore.GetEnabledCoins` | assets/js/app.js:51 | the stored selection, or `[]` when the key is absent |
| `Storage.LocalStore.SetEnabledCoins` | assets/js/app.js:53 | overwrites the selection key and no other |
| `Storage.LocalStore.GetSinglesCoinInfo` | assets/js/app.js:28 | the stored detail map, or `{}` when the key is absent |
| `Storage.LocalStore.SetSinglesCoinInfo` | assets/js/app.js:30 | overwrites the detail map key and no other |
| `Storage.LocalStore.GetAllCoins` | assets/js/app.js:11-26 | result, network use and new store are those of `ReadList` on the old store |
| `Storage.LocalStore.GetSingleCoin` | assets/js/app.js:32-47 | result, network use and new store are those of `ReadDetail` on the old store |
| `Storage.LocalStore.InitStorage` | assets/js/app.js:416-427 | the new store is `Initialized` of the old one |
| `Storage.LocalStore.EnableToggle` | assets/js/app.js:273-300 | the new store and the outcome are those of `ToggleStored` on the old store |
| `Chart.Fresh` | assets/js/app.js:85-93 | a new chart has no labels and one empty dataset per coin |
| `Chart.PriceOf` | assets/js/app.js:129-137 | the `USD` price under the upper-case ticker, or 0 when the entry or the field is missing (no contract of its own; `Chart.TickAppendsOnePoint` states its use) |
| `Chart.Plot` | assets/js/app.js:128-143 | one coin's turn of the `forEach` (no contract of its own; `Chart.PlotEffect` states it) |
| `Chart.PlotFirst` | assets/js/app.js:128-144 | the `forEach` after its first `k` coins keeps one dataset per coin (`Chart.PlotFirstEffect` states the rest) |
| `Chart.Tick` | assets/js/app.js:119-144 | one `updateGraph` tick keeps one dataset per coin (`Chart.TickAppendsOnePoint`, `Chart.TickLengths` and `Chart.TickIgnoresEmptyResponse` state the rest) |
| `Chart.Run` | assets/js/app.js:149-151 | the ticks of the interval applied oldest first keep one dataset per coin (`Chart.RunLengths` states the lengths) |
| `Chart.Kept` | assets/js/app.js:140-143 | the points a dataset keeps for good: at least one and at most `20 - index` when its first label fits, none otherwise; `Chart.KeptBound` gives its meaning |
| `Chart.KeptBound` | assets/js/app.js:140-143 | dataset `index` still grows on tick `n + 1` iff `count * n + index < 20` |
| `Chart.TickIgnoresEmptyResponse` | assets/js/app.js:123-126 | a falsy or empty response changes nothing |
| `Chart.PlotEffect` | assets/js/app.js:128-143 | one coin's turn pushes a label and a point, and trims the labels and that coin's dataset exactly when the labels were already full; other datasets do not move |
| `Chart.PlotFirstEffect` | assets/js/app.js:128-144 | after `k` coins, the labels are the last 20 of those pushed, each handled dataset gained its point and lost its first exactly when the labels were full at that coin, and the rest are untouched |
| `Chart.TickAppendsOnePoint` | assets/js/app.js:123-144 | a tick with prices gives each dataset exactly one point at the end, priced from the batch or 0, and drops at most its first point; the labels stay at 20 or fewer |
| `Chart.TickLengths` | assets/js/app.js:128-144 | a tick adds one label per coin, capped at 20, and adds one point to a dataset unless the labels were full at its coin |
| `Chart.RunLengths` | assets/js/app.js:119-144 | from a fresh chart with `c` coins, `n` ticks with prices leave `min(c*n, 20)` labels and `min(n, Kept(c, j))` points in dataset `j` |
| `Chart.OneCoinWindow` | assets/js/app.js:128-144 | with one coin, `n` ticks leave `min(n, 20)` labels and points |
| `Chart.TwoCoinsStallAtTen` | assets/js/app.js:128-144 | with two coins, ten or more ticks leave 20 labels and 10 points in each dataset |
| `Chart.ThreeCoinsMisaligned` | assets/js/app.js:128-144 | with three coins, seven or more ticks leave datasets of 7, 7 and 6 points |
| `Chart.ChartData.constructor` | assets/js/app.js:85-93 | the chart data starts as `Fresh` of the coins |
| `Chart.ChartData.UpdateGraph` | assets/js/app.js:119-147 | the new chart data is `Tick` of the old data, the response and the time label |
| `Chart.Feed.constructor` | assets/js/app.js:81-82 | both handles start null, with no timer running |
| `Chart.Feed.ResetGraph` | assets/js/app.js:163-173 | both handles end null and the interval's timer stops; from idle or polling the feed is idle; a second call changes nothing |
| `Chart.Feed.GenerateGraph` | assets/js/app.js:83-151 | a fresh chart for the coins and a new running interval; from idle this is polling; from polling the old timer keeps running |
| `Text.Lower` | assets/js/app.js:362 | `toLowerCase` on ASCII: same length, and no upper-case letter is left |
| `Text.Upper` | assets/js/app.js:129 | `toUpperCase` on ASCII: same length, and no lower-case letter is left |
| `Filters.Search` | assets/js/app.js:362 | keeps exactly the listing's coins whose ticker equals the query ignoring case |
| `Filters.SearchKeepsOrder` | assets/js/app.js:362 | the search keeps the listing's order: it distributes over concatenation |
| `Filters.SearchIdempotent` | assets/js/app.js:362 | searching a search result again changes nothing |
| `Filters.SearchIgnoresQueryCase` | assets/js/app.js:362 | the query's letter case does not matter |
| `Filters.CheckedFlags` | assets/js/app.js:55-58 | a card's switch is drawn checked iff its ticker is in the selection |
| `Filters.SwitchIds` | assets/js/app.js:64 | each card's switch id is its coin's ticker |
| `Filters.Visible` | assets/js/app.js:321-334 | with the filter ticked a card shows iff its switch id is selected; unticked, every card shows |
| `Filters.ShownAreChecked` | assets/js/app.js:325-330 | with the filter ticked, the visible cards are exactly the checked ones |
| `Filters.ToggleFlipsOnlyItsCards` | assets/js/app.js:55-58 | after a card toggle without overflow, only the cards with that ticker change their checked state; after an overflow no card does |
| `Filters.ShownAtMostSelected` | assets/js/app.js:325-330 | with distinct card tickers, the filter shows no more cards than the selection has entries |
| `Filters.ShownAtMostCapacity` | assets/js/app.js:325-330 | with distinct card tickers and a valid selection, the filter shows at most five cards |

## Left out

- Network requests (`getData`, `getGraphData`): what a request delivers is a
  parameter (`Fetch`, `Chart.Response`), and a rejected request is `Failed`.
  Clocks are parameters too: `now` in milliseconds, and the chart's
  `toLocaleTimeString` label as a given string.
- JSON encoding of the store's values: each key holds its decoded value, and
  absence is `None`. Text that does not parse is not modelled. The detail
  entry's `time` is written as a `Date` and read back through `new Date(...)`;
  it is modelled as integer milliseconds.
- Chart.js itself: building the chart, `chart.update()` and `chart.destroy()`,
  each dataset's label, and `getRandomColor`, which uses `Math.random`.
- The first `updateGraph()` call inside `generateGraph` is not part of
  `Chart.Feed.GenerateGraph`. It is an ordinary `Chart.ChartData.UpdateGraph`
  once its request settles.
- Concurrency: ticks that overlap because the 2-second timer does not wait for
  a slow request, a request that settles after `resetGraph`, and the start-up
  order in which `loadCoinsPage` begins its listing read before `initStorage`
  runs.
- Storage.CachesIndependent: holds for reads that do not overlap. `getSingleCoin`
  reads the whole detail map before it awaits the request and writes that old
  copy back afterwards. So two overlapping detail reads for different coins
  lose whichever entry was written first. Each read is modelled as one atomic
  step, so this lost update is not modelled.
- Storage.ReadList, Storage.ReadDetail, Storage.ToggleStored, Storage.Initialized:
  assume every `localStorage.setItem` succeeds. A write that throws, for
  example when the origin's storage quota is used up, is not modelled. In the
  code, `getAllCoins` and `getSingleCoin` then reject after a successful fetch.
  If the listing is written but its time is not, the listing keeps the old
  time. `enableToggle` has then already set the switch's `checked` state but
  does not save the selection. Nothing removes an entry from the details map,
  so that map only grows.
- Chart.Feed.GenerateGraph: assumes `new Chart(ctx, ...)` always succeeds.
  Chart.js 3 and later throw when the canvas already holds a chart. Then
  `generateGraph` rejects before `updateGraph()` and `setInterval` run, so no
  second timer starts and `chart` keeps the old chart. The model's two-timer
  case from polling does not cover that failure.
- Bootstrap popovers and the overflow modal: building their HTML and
  listeners, the 50 ms progress bar, and showing the prompt. The prompt's
  effect is modelled as the `pending` argument of later toggles.
- HTML templating and painting (`generateCoinsHTML` apart from its `checked`
  flag, `renderCoinsHTML` with its "no results" alert, `generateSwitchForModal`,
  `displaySearchAndToggle`), and the tab and listener handlers.
- Case mapping is ASCII only. JavaScript's `toLowerCase` and `toUpperCase`
  also map non-ASCII letters, which coin tickers do not use.
- Only the listing fields the page reads are kept (id, ticker, name). Of a
  coin's details, only the name, thumbnail and three prices are kept.
- Selection.ToggleKeepsValid: holds only for non-empty tickers, because the
  code's `find` test treats an empty ticker as absent (see
  `Selection.EmptyTickerDuplicates`). It also assumes a stored list that is
  already valid: the `=== 5` guard would let a longer list keep growing.
- Storage.SessionKeepsSelectionValid: holds only for sessions whose toggles
  carry non-empty tickers, for the same reason.
- Filters.ShownAtMostCapacity: assumes the cards' tickers are distinct. The
  listing may repeat a ticker, and every card with a selected ticker is shown.
