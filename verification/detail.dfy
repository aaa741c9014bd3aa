/**
 The detail view: a single optional feed key, set when the user opens a
 feed's detail view and cleared when it is closed. A refresh re-renders the
 detail chart only for the feed that is open.
 */
module DetailView {
  import opened Wrappers
  import opened Feeds
  import opened Pipeline

  /** Opens the detail view for the card `id`. It succeeds only when a feed
      with that element id exists and already has a cache entry; otherwise
      nothing changes and nothing is rendered. */
  function OpenModal(s: AppState, feeds: seq<FeedConfig>, id: string): (r: Step)
    ensures r.state.cache == s.cache
    ensures RendersDetail(r.effects) <==>
      FindByElementId(feeds, id).Some? && FindByElementId(feeds, id).value.key in s.cache
    ensures RendersDetail(r.effects) ==>
      var f := FindByElementId(feeds, id).value;
      && r.state.openFeed == Some(f.key)
      && r.effects == [RenderDetail(f, s.cache[f.key])]
    ensures !RendersDetail(r.effects) ==> r.state == s && r.effects == []
  {
    match FindByElementId(feeds, id)
    case None => Step(s, [])
    case Some(config) =>
      if config.key !in s.cache then Step(s, [])
      else
        var e := [RenderDetail(config, s.cache[config.key])];
        assert e[0].RenderDetail?;
        Step(s.(openFeed := Some(config.key)), e)
  }

  /** Closes the detail view. */
  function CloseModal(s: AppState): (r: AppState)
    ensures r.openFeed == None
    ensures r.cache == s.cache
  {
    s.(openFeed := None)
  }

  /** The open feed, if any, always has a cache entry to show. */
  predicate Consistent(s: AppState) {
    s.openFeed.Some? ==> s.openFeed.value in s.cache
  }

  /** On the dashboard's own registry, opening card `id` opens the feed whose
      key is `id`, exactly when that is one of the four feeds and it has been
      fetched; in every other case the open feed stays as it was. */
  lemma OpenOnRegistry(s: AppState, id: string)
    ensures OpenModal(s, Registry, id).state.openFeed ==
      if id in {"temperatura", "pulso", "oxigeno", "ambiente"} && id in s.cache then Some(id)
      else s.openFeed
  {
    FindInRegistry(id);
  }

  /** Every operation keeps the open feed backed by a cache entry. */
  lemma OpenKeepsConsistent(s: AppState, feeds: seq<FeedConfig>, id: string)
    requires Consistent(s)
    ensures Consistent(OpenModal(s, feeds, id).state)
  {
  }

  lemma CloseKeepsConsistent(s: AppState)
    ensures Consistent(CloseModal(s))
  {
  }

  lemma RefreshKeepsConsistent(s: AppState, feed: FeedConfig, response: Option<seq<Sample>>, host: Host)
    requires Consistent(s)
    ensures Consistent(Refresh(s, feed, response, host).state)
  {
  }

  lemma RunKeepsConsistent(s: AppState, cs: seq<Completion>, host: Host)
    requires Consistent(s)
    ensures Consistent(RunCompletions(s, cs, host))
  {
  }

  /** Once the detail view is open on a feed, every refresh that writes that
      feed re-renders the detail chart, and no refresh of another feed does. */
  lemma OpenThenRefresh(s: AppState, feeds: seq<FeedConfig>, id: string,
                        feed: FeedConfig, response: Option<seq<Sample>>, host: Host)
    requires RendersDetail(OpenModal(s, feeds, id).effects)
    ensures var shown := OpenModal(s, feeds, id).state;
      RendersDetail(Refresh(shown, feed, response, host).effects) <==>
        Writes(response) && feed.key == FindByElementId(feeds, id).value.key
  {
  }

  /** After the detail view is closed, no refresh re-renders it. */
  lemma CloseThenRefresh(s: AppState, feed: FeedConfig, response: Option<seq<Sample>>, host: Host)
    ensures !RendersDetail(Refresh(CloseModal(s), feed, response, host).effects)
  {
  }
}
