/**
 The per-feed refresh: the fetch result (newest first) is reversed into
 chronological order, filtered, and turned into a cache record that replaces
 the feed's whole cache entry. A failed or empty fetch leaves the cache alone.
 After a write the feed's card is re-rendered, and so is the detail view when
 it is open on that feed.
 */
module Pipeline {
  import opened Wrappers
  import opened Feeds
  import opened Outlier

  /** The host services the pipeline calls: `parseFloat` (None for NaN) and
      the locale time formatting used for chart labels. */
  datatype Host = Host(parse: string -> Option<real>, timeLabel: string -> string)

  /** A cache record: chart labels and raw values in chronological order, plus
      the newest value and timestamp. */
  datatype Series = Series(labels: seq<string>, values: seq<string>, lastValue: string, lastDate: string)

  /** The record invariant: labels and values line up, and `lastValue` is the
      final element of `values`. */
  predicate WellFormed(s: Series) {
    && |s.labels| == |s.values|
    && |s.values| > 0
    && s.lastValue == s.values[|s.values| - 1]
  }

  /** What the dashboard shows, apart from the charts themselves: the cache
      and which feed's detail view is open. */
  datatype AppState = AppState(cache: map<string, Series>, openFeed: Option<string>)

  /** Rendering requests handed to the presentation code. */
  datatype Effect =
    | RenderCard(feed: FeedConfig, series: Series)
    | RenderDetail(feed: FeedConfig, series: Series)

  /** A transition: the new state and the rendering it requests, in order. */
  datatype Step = Step(state: AppState, effects: seq<Effect>)

  /** `Array.prototype.reverse`. */
  function Reverse<T>(s: seq<T>): (r: seq<T>)
    ensures |r| == |s|
    ensures forall i :: 0 <= i < |s| ==> r[i] == s[|s| - 1 - i]
  {
    if |s| == 0 then [] else Reverse(s[1..]) + [s[0]]
  }

  /** Reversing twice restores the original order. */
  lemma ReverseInvolutive<T>(s: seq<T>)
    ensures Reverse(Reverse(s)) == s
  {
  }

  /** Builds the cache record from a non-empty chronological series. */
  function BuildSeries(history: seq<Sample>, host: Host): (r: Series)
    requires |history| > 0
    ensures WellFormed(r)
    ensures |r.values| == |history|
    ensures forall i :: 0 <= i < |history| ==>
      r.values[i] == history[i].value && r.labels[i] == host.timeLabel(history[i].createdAt)
    ensures r.lastDate == history[|history| - 1].createdAt
  {
    Series(
      seq(|history|, i requires 0 <= i < |history| => host.timeLabel(history[i].createdAt)),
      seq(|history|, i requires 0 <= i < |history| => history[i].value),
      history[|history| - 1].value,
      history[|history| - 1].createdAt)
  }

  /** The whole pipeline on one fetched page (newest first). None when the
      page is empty. The record is as long as the page and its date is the
      timestamp of the page's FIRST (newest) sample. `ProcessPointwise` gives
      every position. */
  function Process(key: string, data: seq<Sample>, host: Host): (r: Option<Series>)
    ensures r.None? <==> |data| == 0
    ensures r.Some? ==> WellFormed(r.value) && |r.value.values| == |data|
    ensures r.Some? ==> r.value.lastDate == data[0].createdAt
  {
    if |data| == 0 then None
    else
      var history := Filter(key, host.parse, Reverse(data));
      Some(BuildSeries(history, host))
  }

  /** The record position by position, against the raw page: position i is
      API sample n-1-i; the first value is the oldest raw value; a later value is its predecessor's when its raw sample
      is implausible, and its own raw value otherwise; labels follow the
      reversed timestamps. */
  lemma ProcessPointwise(key: string, data: seq<Sample>, host: Host)
    requires |data| > 0
    ensures var r := Process(key, data, host).value;
      && r.values[0] == data[|data| - 1].value
      && (forall i :: 0 < i < |data| ==>
            r.values[i] ==
              (if Implausible(key, host.parse, data[|data| - 1 - i]) then r.values[i - 1]
               else data[|data| - 1 - i].value))
      && (forall i :: 0 <= i < |data| ==>
            r.labels[i] == host.timeLabel(data[|data| - 1 - i].createdAt))
  {
  }

  /** True when the fetch produced a record: the response was ok and non-empty. */
  predicate Writes(response: Option<seq<Sample>>) {
    response.Some? && |response.value| > 0
  }

  /** True when some requested effect renders the detail view. */
  predicate RendersDetail(effects: seq<Effect>) {
    exists j :: 0 <= j < |effects| && effects[j].RenderDetail?
  }

  /** The cache write of one completed fetch: a written page replaces the
      feed's whole entry with its record; every other entry, and the whole
      cache after a failed or empty fetch, stays as it was. */
  function StoreRecord(cache: map<string, Series>, feed: FeedConfig, response: Option<seq<Sample>>, host: Host)
    : (c: map<string, Series>)
    ensures !Writes(response) ==> c == cache
    ensures Writes(response) ==>
      feed.key in c && Some(c[feed.key]) == Process(feed.key, response.value, host)
    ensures c.Keys == cache.Keys + (if Writes(response) then {feed.key} else {})
    ensures forall k :: k in cache && k != feed.key ==> c[k] == cache[k]
  {
    if Writes(response) then cache[feed.key := Process(feed.key, response.value, host).value]
    else cache
  }

  /** One completed fetch for `feed`. `response` is None when the request failed
      or the API answered with a non-ok status. The cache changes only through
      `StoreRecord`; the detail view is never opened or closed; nothing is
      rendered unless the cache was written, the card is rendered first, and
      the detail chart is rendered exactly when it is open on that feed. */
  function Refresh(s: AppState, feed: FeedConfig, response: Option<seq<Sample>>, host: Host): (r: Step)
    ensures r.state == AppState(StoreRecord(s.cache, feed, response, host), s.openFeed)
    ensures !Writes(response) ==> r.effects == []
    ensures Writes(response) ==>
      |r.effects| > 0 && r.effects[0] == RenderCard(feed, r.state.cache[feed.key])
    ensures RendersDetail(r.effects) <==> Writes(response) && s.openFeed == Some(feed.key)
    ensures Writes(response) ==> forall j :: 0 <= j < |r.effects| ==>
      r.effects[j].feed == feed && r.effects[j].series == r.state.cache[feed.key]
  {
    var cache := StoreRecord(s.cache, feed, response, host);
    if !Writes(response) then
      Step(AppState(cache, s.openFeed), [])
    else
      var series := cache[feed.key];
      var effects :=
        if s.openFeed == Some(feed.key) then [RenderCard(feed, series), RenderDetail(feed, series)]
        else [RenderCard(feed, series)];
      assert s.openFeed == Some(feed.key) ==> effects[1].RenderDetail?;
      Step(AppState(cache, s.openFeed), effects)
  }

  /** The refresh in the dashboard's own order of steps: bail out on a failed
      or empty fetch, reverse, filter in place, store, then render. */
  method FetchData(s: AppState, feed: FeedConfig, response: Option<seq<Sample>>, host: Host) returns (r: Step)
    ensures r == Refresh(s, feed, response, host)
  {
    if response.None? {
      return Step(s, []);
    }
    var data := response.value;
    if |data| == 0 {
      return Step(s, []);
    }
    var history := Reverse(data);
    history := FilterInPlace(feed.key, host.parse, history);
    var series := BuildSeries(history, host);
    var effects := [RenderCard(feed, series)];
    if s.openFeed == Some(feed.key) {
      effects := effects + [RenderDetail(feed, series)];
    }
    r := Step(s.(cache := s.cache[feed.key := series]), effects);
  }

  /** One fetch that has completed. */
  datatype Completion = Completion(feed: FeedConfig, response: Option<seq<Sample>>)

  /** Applies fetch completions in the order they COMPLETED; ticks overlap,
      so this order need not be the order in which the fetches were started.
      Completions never open or close the detail view and never remove a
      cache entry. */
  function RunCompletions(s: AppState, cs: seq<Completion>, host: Host): (r: AppState)
    decreases |cs|
    ensures r.openFeed == s.openFeed
    ensures s.cache.Keys <= r.cache.Keys
  {
    if |cs| == 0 then s
    else
      var before := RunCompletions(s, cs[..|cs| - 1], host);
      Refresh(before, cs[|cs| - 1].feed, cs[|cs| - 1].response, host).state
  }

  /** True when completion c writes the cache entry `key`. */
  predicate WritesKey(c: Completion, key: string) {
    c.feed.key == key && Writes(c.response)
  }


  /** Last write wins: the entry for `key` is the record built by the LAST
      completion that wrote it, whatever was started earlier or later. */
  lemma {:induction false} LastWriteWins(s: AppState, cs: seq<Completion>, host: Host, key: string, j: nat)
    requires j < |cs| && WritesKey(cs[j], key)
    requires forall m :: j < m < |cs| ==> !WritesKey(cs[m], key)
    ensures key in RunCompletions(s, cs, host).cache
    ensures Some(RunCompletions(s, cs, host).cache[key]) == Process(key, cs[j].response.value, host)
    decreases |cs|
  {
    var n := |cs| - 1;
    var before := RunCompletions(s, cs[..n], host);
    assert RunCompletions(s, cs, host).cache == StoreRecord(before.cache, cs[n].feed, cs[n].response, host);
    if j < n {
      LastWriteWins(s, cs[..n], host, key, j);
    }
  }

  /** A key that no completion writes keeps its entry, or its absence. */
  lemma {:induction false} UnwrittenKeyUnchanged(s: AppState, cs: seq<Completion>, host: Host, key: string)
    requires forall m :: 0 <= m < |cs| ==> !WritesKey(cs[m], key)
    ensures key in RunCompletions(s, cs, host).cache <==> key in s.cache
    ensures key in s.cache ==> RunCompletions(s, cs, host).cache[key] == s.cache[key]
    decreases |cs|
  {
    if |cs| > 0 {
      UnwrittenKeyUnchanged(s, cs[..|cs| - 1], host, key);
    }
  }
}
