/**
 * The use-case tests of LocalFeedLoader, each as a client of the verified
 * loader and spy: the method sets up a fresh store and loader, performs the
 * test's steps, and its postcondition is the test's assertion. Nothing below
 * is proved from the method bodies of the loader; only their contracts.
 */
module FeedCacheScenarios {
  import opened Wrappers
  import opened FeedDomain
  import opened FeedStore
  import opened LocalFeedLoading
  import CachePolicy

  /** A fresh loader over a fresh store has sent the store nothing. */
  method InitSendsNoMessage(now: Timestamp) returns (messages: seq<ReceivedMessage>)
    ensures messages == []
  {
    var store := new FeedStoreSpy();
    var sut := new LocalFeedLoader(store, now);
    messages := store.receivedMessages;
  }

  /** `save` first asks for a deletion and nothing else. */
  method SaveRequestsCacheDeletion(items: seq<FeedImage>, now: Timestamp)
    returns (messages: seq<ReceivedMessage>, delivered: seq<Delivery>)
    ensures messages == [DeleteCacheFeed]
    ensures delivered == []
  {
    var store := new FeedStoreSpy();
    var sut := new LocalFeedLoader(store, now);
    sut.Save(items);
    messages, delivered := store.receivedMessages, sut.deliveries;
  }

  /** A deletion error stops the save before any insertion and reaches the caller unchanged. */
  method SaveFailsOnDeletionError(items: seq<FeedImage>, now: Timestamp, deletionError: Error)
    returns (messages: seq<ReceivedMessage>, delivered: seq<Delivery>)
    ensures messages == [DeleteCacheFeed]
    ensures delivered == [SaveCompleted(Some(deletionError))]
  {
    var store := new FeedStoreSpy();
    var sut := new LocalFeedLoader(store, now);
    sut.Save(items);
    store.CompleteDeletion(deletionError, 0);
    messages, delivered := store.receivedMessages, sut.deliveries;
  }

  /** After a successful deletion the items are inserted, mapped 1:1 in order, with the clock's date. */
  method SaveInsertsWithTimestampOnSuccessfulDeletion(items: seq<FeedImage>, now: Timestamp)
    returns (messages: seq<ReceivedMessage>, delivered: seq<Delivery>)
    ensures messages == [DeleteCacheFeed, ReceivedMessage.Insert(ToLocal(items), now)]
    ensures |messages[1].items| == |items|
    ensures forall k :: 0 <= k < |items| ==>
              messages[1].items[k].id == items[k].id && messages[1].items[k].url == items[k].url &&
              messages[1].items[k].description == items[k].description &&
              messages[1].items[k].location == items[k].location
    ensures delivered == []
  {
    var store := new FeedStoreSpy();
    var sut := new LocalFeedLoader(store, now);
    sut.Save(items);
    store.CompleteDeletionSuccessfully(0);
    messages, delivered := store.receivedMessages, sut.deliveries;
  }

  /** An insertion error after a successful deletion reaches the caller unchanged. */
  method SaveFailsOnInsertionError(items: seq<FeedImage>, now: Timestamp, insertionError: Error)
    returns (messages: seq<ReceivedMessage>, delivered: seq<Delivery>)
    ensures messages == [DeleteCacheFeed, ReceivedMessage.Insert(ToLocal(items), now)]
    ensures delivered == [SaveCompleted(Some(insertionError))]
  {
    var store := new FeedStoreSpy();
    var sut := new LocalFeedLoader(store, now);
    sut.Save(items);
    store.CompleteDeletionSuccessfully(0);
    store.CompleteInsertion(insertionError, 0);
    messages, delivered := store.receivedMessages, sut.deliveries;
  }

  /** A successful insertion completes the save with no error. */
  method SaveSucceedsOnSuccessfulInsertion(items: seq<FeedImage>, now: Timestamp)
    returns (delivered: seq<Delivery>)
    ensures delivered == [SaveCompleted(None)]
  {
    var store := new FeedStoreSpy();
    var sut := new LocalFeedLoader(store, now);
    sut.Save(items);
    store.CompleteDeletionSuccessfully(0);
    store.CompleteInsertionSuccessfully(0);
    delivered := sut.deliveries;
  }

  /** A loader released before its deletion completes delivers nothing and inserts nothing. */
  method SaveDeliversNothingAfterReleaseBeforeDeletion(items: seq<FeedImage>, now: Timestamp, deletionError: Error)
    returns (messages: seq<ReceivedMessage>, delivered: seq<Delivery>)
    ensures messages == [DeleteCacheFeed]
    ensures delivered == []
  {
    var store := new FeedStoreSpy();
    var sut := new LocalFeedLoader(store, now);
    sut.Save(items);
    sut.Release();
    store.CompleteDeletion(deletionError, 0);
    messages, delivered := store.receivedMessages, sut.deliveries;
  }

  /** A loader released before its insertion completes delivers nothing. */
  method SaveDeliversNothingAfterReleaseBeforeInsertion(items: seq<FeedImage>, now: Timestamp, insertionError: Error)
    returns (delivered: seq<Delivery>)
    ensures delivered == []
  {
    var store := new FeedStoreSpy();
    var sut := new LocalFeedLoader(store, now);
    sut.Save(items);
    store.CompleteDeletionSuccessfully(0);
    sut.Release();
    store.CompleteInsertion(insertionError, 0);
    delivered := sut.deliveries;
  }

  /** `load` asks for exactly one retrieve. */
  method LoadRequestsRetrieve(now: Timestamp) returns (messages: seq<ReceivedMessage>)
    ensures messages == [ReceivedMessage.Retrieve]
  {
    var store := new FeedStoreSpy();
    var sut := new LocalFeedLoader(store, now);
    sut.Load();
    messages := store.receivedMessages;
  }

  /**
   * `load` completed with any retrieve outcome: a retrieval error is passed on,
   * an empty cache gives no images, and no outcome makes load send a second message.
   */
  method LoadCompletesWith(result: RetrieveCachedFeedResult, now: Timestamp)
    returns (messages: seq<ReceivedMessage>, delivered: seq<Delivery>)
    ensures messages == [ReceivedMessage.Retrieve]
    ensures |delivered| == 1 && delivered[0].LoadCompleted?
    ensures result.Failure? ==> delivered[0].result == Result.Failure(result.error)
    ensures result.Empty? ==> delivered[0].result == Success([])
    ensures result.Found? && now - result.timestamp >= CachePolicy.MaxCacheAge ==> delivered[0].result == Success([])
  {
    var store := new FeedStoreSpy();
    var sut := new LocalFeedLoader(store, now);
    sut.Load();
    store.CompleteRetrieval(result, 0);
    messages, delivered := store.receivedMessages, sut.deliveries;
    if result.Found? && now - result.timestamp >= CachePolicy.MaxCacheAge {
      LoadDeliversNothingStale(result, now);
    }
  }

  /** A cache one second younger than seven days is delivered as the same feed, in order. */
  method LoadDeliversLessThanSevenDaysOldCache(feed: seq<FeedImage>, now: Timestamp)
    returns (delivered: seq<Delivery>)
    ensures delivered == [LoadCompleted(Success(feed))]
  {
    var store := new FeedStoreSpy();
    var sut := new LocalFeedLoader(store, now);
    sut.Load();
    store.CompleteRetrieval(Found(ToLocal(feed), now - CachePolicy.MaxCacheAge + 1), 0);
    delivered := sut.deliveries;
    ModelOfLocal(feed);
  }

  /** A retrieval error makes validateCache delete the cache: the log is retrieve, then delete. */
  method ValidateDeletesOnRetrievalError(now: Timestamp, error: Error)
    returns (messages: seq<ReceivedMessage>, delivered: seq<Delivery>)
    ensures messages == [ReceivedMessage.Retrieve, DeleteCacheFeed]
    ensures delivered == []
  {
    var store := new FeedStoreSpy();
    var sut := new LocalFeedLoader(store, now);
    sut.ValidateCache();
    assert store.retrievalCompletions[0] == ValidateRetrieval(sut);
    assert NeedsDeletion(RetrieveCachedFeedResult.Failure(error), now);
    store.CompleteRetrieval(RetrieveCachedFeedResult.Failure(error), 0);
    messages, delivered := store.receivedMessages, sut.deliveries;
  }

  /** An empty cache is left alone by validateCache: the log stays a single retrieve. */
  method ValidateKeepsEmptyCache(now: Timestamp) returns (messages: seq<ReceivedMessage>)
    ensures messages == [ReceivedMessage.Retrieve]
  {
    var store := new FeedStoreSpy();
    var sut := new LocalFeedLoader(store, now);
    sut.ValidateCache();
    store.CompleteRetrieval(Empty, 0);
    messages := store.receivedMessages;
  }

  /**
   * validateCache on a found cache deletes it exactly when it is at least
   * seven days old, while load on the same outcome never deletes.
   */
  method ValidateAndLoadOnFoundCache(feed: seq<LocalFeedImage>, timestamp: Timestamp, now: Timestamp)
    returns (validateMessages: seq<ReceivedMessage>, loadMessages: seq<ReceivedMessage>)
    ensures now - timestamp >= CachePolicy.MaxCacheAge ==> validateMessages == [ReceivedMessage.Retrieve, DeleteCacheFeed]
    ensures now - timestamp < CachePolicy.MaxCacheAge ==> validateMessages == [ReceivedMessage.Retrieve]
    ensures loadMessages == [ReceivedMessage.Retrieve]
  {
    var store := new FeedStoreSpy();
    var sut := new LocalFeedLoader(store, now);
    sut.ValidateCache();
    store.CompleteRetrieval(Found(feed, timestamp), 0);
    validateMessages := store.receivedMessages;

    var store2 := new FeedStoreSpy();
    var sut2 := new LocalFeedLoader(store2, now);
    sut2.Load();
    store2.CompleteRetrieval(Found(feed, timestamp), 0);
    loadMessages := store2.receivedMessages;
  }
}
