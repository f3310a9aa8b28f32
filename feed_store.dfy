/** The FeedStore contract: what a retrieve of the single feed slot can deliver. */
module FeedStore {
  import opened FeedDomain

  /** The whole content of the feed slot: the images and when they were written. */
  datatype CachedFeed = CachedFeed(feed: seq<LocalFeedImage>, timestamp: Timestamp)

  /** `RetriveCachedFeedResult`: the three and only three outcomes of a retrieve. */
  datatype RetrieveCachedFeedResult =
    | Empty
    | Failure(error: Error)
    | Found(feed: seq<LocalFeedImage>, timestamp: Timestamp)
}
