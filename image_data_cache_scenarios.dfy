/**
 * The use-case tests of LocalFeedImageDataLoader (loading and caching image
 * bytes), each as a client of the verified loader, task and spy: a fresh
 * store and loader, the test's steps, and the test's assertion as the
 * postcondition.
 */
module ImageDataCacheScenarios {
  import opened Wrappers
  import opened FeedDomain
  import opened ImageDataCache

  /** A fresh loader over a fresh store has sent the store nothing. */
  method InitDoesNotMessageStore() returns (messages: seq<Message>)
    ensures messages == []
  {
    var store := new FeedImageStoreSpy();
    var sut := new LocalFeedImageDataLoader(store);
    messages := store.receivedMessages;
  }

  /** `loadImageData(url)` asks for the bytes of exactly that URL, once. */
  method LoadImageDataRetrievesDataForUrl(url: Url) returns (messages: seq<Message>)
    ensures messages == [RetrieveDataFor(url)]
  {
    var store := new FeedImageStoreSpy();
    var sut := new LocalFeedImageDataLoader(store);
    var task := sut.LoadImageData(url);
    messages := store.receivedMessages;
  }

  /**
   * One load completed by the store with `stored`: a store error arrives as
   * the same error, no bytes as `notFound`, and stored bytes unchanged; the
   * caller hears exactly once and the store receives nothing more.
   */
  method LoadImageDataCompletesWith(url: Url, stored: StoreRetrievalResult)
    returns (messages: seq<Message>, received: seq<ImageDataResult>)
    ensures messages == [RetrieveDataFor(url)]
    ensures |received| == 1
    ensures stored.Failure? ==> received[0] == Failure(stored.error)
    ensures stored == Success(None) ==> received[0] == Failure(NotFound)
    ensures stored.Success? && stored.value.Some? ==> received[0] == Success(stored.value.value)
  {
    var store := new FeedImageStoreSpy();
    var sut := new LocalFeedImageDataLoader(store);
    var task := sut.LoadImageData(url);
    if stored.Failure? {
      store.CompleteRetrievalWithError(stored.error, 0);
    } else {
      store.CompleteRetrieval(stored.value, 0);
    }
    messages, received := store.receivedMessages, task.received;
  }

  /** A cancelled task hears nothing, whatever the store later completes it with, and however often. */
  method LoadImageDataDeliversNothingAfterCancel(url: Url, data: Data, error: Error)
    returns (received: seq<ImageDataResult>)
    ensures received == []
  {
    var store := new FeedImageStoreSpy();
    var sut := new LocalFeedImageDataLoader(store);
    var task := sut.LoadImageData(url);
    task.Cancel();
    store.CompleteRetrievalWithError(error, 0);
    store.CompleteRetrieval(Some(data), 0);
    store.CompleteRetrieval(None, 0);
    received := task.received;
  }

  /** Two loads are two tasks: cancelling the first leaves the second's delivery intact. */
  method CancellingOneTaskLeavesOthers(url1: Url, url2: Url, data: Data)
    returns (messages: seq<Message>, first: seq<ImageDataResult>, second: seq<ImageDataResult>)
    ensures messages == [RetrieveDataFor(url1), RetrieveDataFor(url2)]
    ensures first == [] && second == [Success(data)]
  {
    var store := new FeedImageStoreSpy();
    var sut := new LocalFeedImageDataLoader(store);
    var task1 := sut.LoadImageData(url1);
    var task2 := sut.LoadImageData(url2);
    messages := store.receivedMessages;
    var c := store.retrievalCompletions;
    assert c[0].task == task1 && c[1].task == task2;
    task1.Cancel();
    store.CompleteRetrieval(Some(data), 0);
    store.CompleteRetrieval(Some(data), 1);
    first, second := task1.received, task2.received;
  }

  /** `save(data, for: url)` sends exactly one insert carrying the bytes and URL unchanged. */
  method SaveRequestsInsertionForUrl(data: Data, url: Url) returns (messages: seq<Message>)
    ensures messages == [InsertData(data, url)]
    ensures messages[0].data == data && messages[0].url == url
  {
    var store := new FeedImageStoreSpy();
    var sut := new LocalFeedImageDataLoader(store);
    sut.Save(data, url);
    messages := store.receivedMessages;
  }

  /** An insertion error reaches the save caller as the same error. */
  method SaveDeliversErrorOnInsertionError(data: Data, url: Url, error: Error)
    returns (saveResults: seq<SaveResult>)
    ensures saveResults == [Failure(error)]
  {
    var store := new FeedImageStoreSpy();
    var sut := new LocalFeedImageDataLoader(store);
    sut.Save(data, url);
    store.CompleteInsertion(error, 0);
    saveResults := sut.saveResults;
  }

  /** A loader released before its insertion completes delivers nothing. */
  method SaveDeliversNothingAfterRelease(data: Data, url: Url, error: Error)
    returns (messages: seq<Message>, saveResults: seq<SaveResult>)
    ensures messages == [InsertData(data, url)]
    ensures saveResults == []
  {
    var store := new FeedImageStoreSpy();
    var sut := new LocalFeedImageDataLoader(store);
    sut.Save(data, url);
    sut.Release();
    store.CompleteInsertion(error, 0);
    messages, saveResults := store.receivedMessages, sut.saveResults;
  }
}
