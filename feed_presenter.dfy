/**
 * FeedPresenter: each feed-loading event becomes a fixed, ordered list of
 * display calls on the loading view and the feed view. The presenter keeps
 * only its two views, so a call's displays depend on nothing but the call.
 */
module FeedPresentation {
  import opened Wrappers
  import opened FeedDomain

  /** One display call: `FeedLoadingView.display(FeedLoadingViewData)` or `FeedView.display(FeedViewData)`. */
  datatype Display =
    | LoadingDisplay(isLoading: bool)
    | FeedDisplay(feed: seq<FeedImage>)

  /** The three calls a feed presenter receives. */
  datatype FeedEvent =
    | StartedLoadingFeed
    | FinishedLoadingFeed(feed: seq<FeedImage>)
    | FailedLoadingFeed(error: Error)

  /**
   * The displays of one call: a start shows the loading state; a finished
   * load shows the feed and then stops loading; a failure only stops loading.
   */
  function Present(event: FeedEvent): (displays: seq<Display>)
    ensures displays != [] && displays[|displays| - 1] == LoadingDisplay(event.StartedLoadingFeed?)
    ensures event.FinishedLoadingFeed? ==> |displays| == 2 && displays[0] == FeedDisplay(event.feed)
    ensures !event.FinishedLoadingFeed? ==> |displays| == 1
  {
    match event
    case StartedLoadingFeed => [LoadingDisplay(true)]
    case FinishedLoadingFeed(feed) => [FeedDisplay(feed), LoadingDisplay(false)]
    case FailedLoadingFeed(_) => [LoadingDisplay(false)]
  }

  /** The displays of a series of calls, in call order. */
  function PresentAll(events: seq<FeedEvent>): seq<Display> {
    if events == [] then [] else PresentAll(events[..|events| - 1]) + Present(events[|events| - 1])
  }

  /** What the loading view shows after a series of displays: the last loading display's value, if any. */
  function LoadingShown(displays: seq<Display>): Option<bool> {
    if displays == [] then None
    else if displays[|displays| - 1].LoadingDisplay? then Some(displays[|displays| - 1].isLoading)
    else LoadingShown(displays[..|displays| - 1])
  }

  /** Every feed the feed view was given, in order. */
  function FeedsShown(displays: seq<Display>): seq<seq<FeedImage>> {
    if displays == [] then []
    else FeedsShown(displays[..|displays| - 1]) +
         (if displays[|displays| - 1].FeedDisplay? then [displays[|displays| - 1].feed] else [])
  }

  /** Every feed the presenter was told about, in order. */
  function FeedsLoaded(events: seq<FeedEvent>): seq<seq<FeedImage>> {
    if events == [] then []
    else FeedsLoaded(events[..|events| - 1]) +
         (if events[|events| - 1].FinishedLoadingFeed? then [events[|events| - 1].feed] else [])
  }

  lemma {:induction false} LoadingShownAppend(a: seq<Display>, b: seq<Display>)
    requires b != [] && b[|b| - 1].LoadingDisplay?
    ensures LoadingShown(a + b) == Some(b[|b| - 1].isLoading)
  {
    assert (a + b)[|a + b| - 1] == b[|b| - 1];
  }

  lemma {:induction false} FeedsShownAppend(a: seq<Display>, b: seq<Display>)
    ensures FeedsShown(a + b) == FeedsShown(a) + FeedsShown(b)
    decreases |b|
  {
    if b != [] {
      var front := b[..|b| - 1];
      assert (a + b)[..|a + b| - 1] == a + front;
      FeedsShownAppend(a, front);
    } else {
      assert a + b == a;
    }
  }

  /**
   * After any non-empty series of calls the loading indicator shows exactly
   * when the last call was a start: every finish, successful or not, stops it.
   */
  lemma {:induction false} LoadingFollowsLastEvent(events: seq<FeedEvent>)
    requires events != []
    ensures LoadingShown(PresentAll(events)) == Some(events[|events| - 1].StartedLoadingFeed?)
  {
    var last := Present(events[|events| - 1]);
    LoadingShownAppend(PresentAll(events[..|events| - 1]), last);
  }

  /**
   * The feed view is given exactly the feeds of the successful loads, each
   * unchanged and in order; starts and failures never touch it.
   */
  lemma {:induction false} FeedViewShowsLoadedFeeds(events: seq<FeedEvent>)
    ensures FeedsShown(PresentAll(events)) == FeedsLoaded(events)
  {
    if events != [] {
      var front := events[..|events| - 1];
      var e := events[|events| - 1];
      FeedViewShowsLoadedFeeds(front);
      FeedsShownAppend(PresentAll(front), Present(e));
      var p := Present(e);
      match e
      case StartedLoadingFeed =>
        assert FeedsShown(p) == FeedsShown([]) + [];
      case FailedLoadingFeed(_) =>
        assert FeedsShown(p) == FeedsShown([]) + [];
      case FinishedLoadingFeed(feed) =>
        assert p[..1] == [FeedDisplay(feed)];
        assert FeedsShown(p[..1]) == FeedsShown([]) + [feed];
        assert FeedsShown(p) == FeedsShown(p[..1]) + [];
    }
  }
}
