# dilucVet dashboard: refresh pipeline and detail view, in Dafny

The dashboard polls a time-series API every 10 seconds for four sensor feeds:
body temperature, pulse, oxygen saturation and ambient temperature. Each
completed fetch runs through one pipeline in `fetchData`:

1. A failed or non-ok response, or an empty page, aborts. The cache entry stays as it was.
2. The page arrives newest first and is reversed into chronological order.
3. An outlier filter scans it index by index. For each index after the first,
   it replaces an implausible reading with its predecessor's raw value, taken
   after the predecessor has itself been filtered. So a run of bad readings
   collapses onto the last good one. The bounds are:
   - oxygen: below 80;
   - pulse: below 50;
   - body temperature: below 30 or above 50;
   - any other feed: no filtering.
4. A cache record is built: labels, values, the newest value and the newest date.
   It replaces the feed's whole cache entry.
5. The feed's card is re-rendered. The detail chart is re-rendered only if the
   detail view is open on that feed.

The detail view's state is one optional feed key. Opening a card sets the key
only when the card's feed exists and has a cache entry. Closing clears it.

Modules:
- `Wrappers`: `Option`.
- `Feeds`: `FeedConfig`, `Sample`, the four-feed `Registry`, and lookup by element id.
- `Outlier`: the filter in two forms.
  - `Filter` is the pure form.
  - `FilterInPlace` is the array loop as written.
  - A reference reading, `Anchor`, gives the nearest index at or before i that
    is the first one or is plausible.
  - The proved properties are run collapse, idempotence and fixed points.
- `Pipeline`: `Reverse`, `Series`, `Process`, `StoreRecord`, `Refresh`, `FetchData`, and
  fetch completions applied in the order they complete.
- `DetailView`: open and close, plus the invariant that the open feed always has a cache entry.
- `Scenarios`: concrete runs with a small table standing in for `parseFloat`.

Host services are parameters, bundled in `Pipeline.Host`:
- `parse` stands for `parseFloat`. `None` stands for NaN.
- `timeLabel` stands for `new Date(...).toLocaleTimeString()`.

Two consequences of the code are worth spelling out:
- An unparseable reading is never out of range. `parseFloat` gives NaN, and every
  NaN comparison is false (script.js:44,51,57). `Outlier.Below` and
  `Outlier.Above` model this.
- Oxygen `99, 72, 10, 5, 60` filters to `99, 99, 99, 99, 99`, because 72, 10, 5
  and 60 are all below 80 (`Scenarios.OxygenRunCollapses`). The same readings
  on the pulse feed give `99, 72, 72, 72, 60` (`Scenarios.PulseRunCollapses`).

## Model

| member | source | states |
|---|---|---|
| Feeds.FindByElementId | script.js:138 | `FEEDS.find` by element id: the first feed whose element id matches, or None exactly when no feed matches |
| Feeds.FindInRegistry | script.js:6-11 | in the dashboard's registry, a card id finds a feed exactly when it is one of the four keys, and the feed found has that key |
| Outlier.OutOfRange | script.js:43-60 | the bounds: oxygen below 80, pulse below 50, body temperature below 30 or above 50 (all strict), any other key never; the contract states that an unparseable value (None) is never out of range, that no other key ever is, and that an out-of-range temperature lies outside [30, 50] |
| Outlier.Filter | script.js:39-61 | length and timestamps are kept; index 0 is kept; for i > 0, an implausible original sample takes the already-filtered value at i-1; a plausible or unparseable sample is unchanged |
| Outlier.Anchor | script.js:39-61 | the nearest index at or before i that is 0 or plausible, with every index after it up to i implausible |
| Outlier.FilterTakesAnchorValue | script.js:39-61 | each filtered sample keeps its own timestamp and carries the raw value of its anchor |
| Outlier.RunCollapse | script.js:44-45 | after a plausible sample, or from index 0, a run of implausible samples all take that sample's value |
| Outlier.FilterValuesComeFromInput | script.js:45 | every output value is the raw value of some input sample at or before it; the filter never invents a value |
| Outlier.UnboundedFeedIsIdentity | script.js:43-60 | for a key other than oxygen, pulse or body temperature, the filter returns its input |
| Outlier.PlausibleSeriesIsFixed | script.js:40-60 | a series with no implausible sample after index 0 is returned unchanged |
| Outlier.FilterOutputIsStable | script.js:44-45 | in the filter's output, every implausible sample after index 0 repeats its predecessor's value |
| Outlier.StableFixedAt | script.js:39-61 | the filter changes no position of a stable series |
| Outlier.StableIffFixed | script.js:39-61 | a series is a fixed point of the filter if and only if it is stable |
| Outlier.FilterIdempotent | script.js:39-61 | filtering an already-filtered series returns it unchanged |
| Outlier.FilterInPlace | script.js:39-61 | the in-place array loop, with its three per-key guards, computes exactly `Filter` |
| Pipeline.Reverse | script.js:35 | same length; position i holds the input's element n-1-i |
| Pipeline.ReverseInvolutive | script.js:35 | reversing twice restores the order |
| Pipeline.BuildSeries | script.js:63-68 | labels and values line up with the chronological samples; `lastValue` is the last value; `lastDate` is the last sample's timestamp |
| Pipeline.Process | script.js:32-68 | stated against the raw newest-first page: None exactly for an empty page; the record is well formed and as long as the page; `lastDate` is the newest sample's timestamp |
| Pipeline.ProcessPointwise | script.js:35-65 | position i of the record is API sample n-1-i: the first value is the oldest raw value; a later value is its predecessor's when its raw sample is implausible, and its own raw value otherwise; labels follow the reversed timestamps |
| Pipeline.StoreRecord | script.js:29-68 | the cache write: a failed or empty fetch leaves the cache as it was; a successful one replaces the feed's whole entry with `Process`'s record, adds no other key, and leaves every other entry unchanged |
| Pipeline.Refresh | script.js:29-76 | the new state is the cache after `StoreRecord` with the open feed unchanged; a failed or empty fetch renders nothing; after a write the card is rendered first, every render carries the feed and its new record, and the detail chart is rendered exactly when it is open on that feed |
| Pipeline.FetchData | script.js:22-77 | the step-by-step refresh (early returns, reverse, in-place filter, store, render) yields exactly `Refresh` |
| Pipeline.RunCompletions | script.js:18-77 | applies completed fetches in completion order, each through `Refresh`; completions never open or close the detail view (`fetchData` never assigns `currentOpenFeed`), and no cache entry is ever removed |
| Pipeline.LastWriteWins | script.js:63 | after a sequence of completed fetches, a feed's entry is the record of the last completion that wrote it, in completion order |
| Pipeline.UnwrittenKeyUnchanged | script.js:63 | a feed that no completion writes keeps its entry, or stays absent |
| DetailView.OpenModal | script.js:137-148 | the detail view opens, and its chart is rendered, exactly when a feed has that element id and a cache entry; otherwise state and output are unchanged; the cache is never touched |
| DetailView.CloseModal | script.js:150-153 | closing clears the open feed and leaves the cache alone |
| DetailView.OpenOnRegistry | script.js:137-141 | on the real registry, opening card `id` sets the open feed to `id` exactly when `id` is one of the four keys and is cached; otherwise the open feed is unchanged |
| DetailView.OpenKeepsConsistent | script.js:139-141 | opening keeps the open feed backed by a cache entry |
| DetailView.CloseKeepsConsistent | script.js:152 | closing keeps the open feed backed by a cache entry |
| DetailView.RefreshKeepsConsistent | script.js:63-72 | a refresh keeps the open feed backed by a cache entry |
| DetailView.RunKeepsConsistent | script.js:18-77 | any sequence of completed fetches keeps the open feed backed by a cache entry |
| DetailView.OpenThenRefresh | script.js:72-74 | after a successful open, a refresh re-renders the detail chart exactly when it writes the opened feed |
| DetailView.CloseThenRefresh | script.js:72 | after closing, no refresh re-renders the detail chart |
| Scenarios.OxygenRunCollapses | script.js:43-46 | oxygen `99, 72, 10, 5, 60` filters to `99, 99, 99, 99, 99` |
| Scenarios.PulseRunCollapses | script.js:50-54 | pulse `99, 72, 10, 5, 60` filters to `99, 72, 72, 72, 60` |
| Scenarios.TemperatureEndToEnd | script.js:32-68 | temperature page `36.5, 200, 36.2` (newest first) gives values `36.2, 36.2, 36.5`, newest value `36.5` and the first sample's date |
| Scenarios.PulseEdgeCases | script.js:51 | an implausible first sample is kept, the next one copies it, and an unparseable sample passes through |

## Left out

- The HTTP request, the API credential header and `response.json()` are network I/O. A fetch arrives as `Option<seq<Sample>>`: None for a failed request, a non-ok status or an unreadable body. The `limit=20` page size is the API's concern; the model accepts a page of any length.
- `updateAllFeeds` and `setInterval` are concurrency. They are modelled only as a sequence of completed fetches applied in completion order (`Pipeline.RunCompletions`). Each write replaces a whole entry.
- Chart.js and all DOM access are foreign UI code. This covers `updateCardUI`, `renderModalChart`, the modal's style and title, and `window.onclick`, which only calls `closeModal`. Rendering appears as `RenderCard` / `RenderDetail` effects.
- An exception thrown by the rendering code after the cache write is caught on line 76. Such an exception could skip the detail render. It is not modelled because rendering is outside the model.
- `toLocaleTimeString`, `new Date`, `toFixed(1)` and the date padding depend on locale, time zone and float formatting. Labels are an opaque function of the timestamp (`Host.timeLabel`).
- Logging is dropped: the `console.error(error)` at script.js:76 reports a failed or non-ok fetch, or an exception after the write; `Refresh` models a failed or non-ok fetch as no change and no render.
- `parseFloat` is the parameter `Host.parse`. Numbers are modelled as exact reals, so double rounding at the bounds is not modelled.
- The in-place mutation of the response objects is not modelled. `data.reverse()` and the value assignments mutate objects that nothing else holds, so only the resulting values are.
