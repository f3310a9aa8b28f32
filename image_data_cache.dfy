/**
 * LocalFeedImageDataLoader (save and loadImageData) driven by
 * FeedImageStoreSPY, the recording image-data store its use-case tests run
 * it against.
 *
 * As for the feed cache, each closure handed to the store is a value of a
 * completion datatype carrying what the closure captures. The save closure
 * holds the loader weakly (`alive`); the retrieval closure holds only the
 * task it completes, and a cancelled task drops every later result.
 */
module ImageDataCache {
  import opened Wrappers
  import opened FeedDomain

  /** `FeedImageStore`'s retrieval result: the bytes stored for a URL, none, or a store error. */
  type StoreRetrievalResult = Result<Option<Data>, Error>

  /** `FeedImageDataLoader.Result`. */
  type ImageDataResult = Result<Data, Error>

  /** `LocalFeedImageDataLoader.SaveResult` (`Result<Void, Error>`). */
  type SaveResult = Result<(), Error>

  // ---------------------------------------------------------------------------
  // What loadImageData delivers for a store result
  // ---------------------------------------------------------------------------

  /**
   * loadImageData's mapping of a retrieval: a store error is passed on,
   * stored bytes are delivered unchanged, and no bytes is `LoadError.notFound`.
   */
  function LoadImageDataOutcome(r: StoreRetrievalResult): (out: ImageDataResult)
    ensures out.Success? <==> r.Success? && r.value.Some?
    ensures out.Success? ==> out.value == r.value.value
    ensures r.Failure? ==> out.Failure? && out.error == r.error
    ensures r.Success? && r.value.None? ==> out.Failure? && out.error == NotFound
  {
    match r
    case Failure(e) => Failure(e)
    case Success(data) =>
      match data
      case Some(bytes) => Success(bytes)
      case None => Failure(NotFound)
  }

  /**
   * A delivery determines the store result it came from, as long as the store
   * itself does not report `notFound`: the mapping loses nothing, and an
   * empty store is told apart from a failing one.
   */
  lemma LoadImageDataOutcomeInjective(r1: StoreRetrievalResult, r2: StoreRetrievalResult)
    requires r1.Failure? ==> r1.error != NotFound
    requires r2.Failure? ==> r2.error != NotFound
    requires LoadImageDataOutcome(r1) == LoadImageDataOutcome(r2)
    ensures r1 == r2
  {
    var out := LoadImageDataOutcome(r1);
    if out.Success? {
      assert r1 == Success(Some(out.value)) && r2 == Success(Some(out.value));
    } else if out.error == NotFound {
      assert r1 == Success(None) && r2 == Success(None);
    } else {
      assert r1 == Failure(out.error) && r2 == Failure(out.error);
    }
  }

  // ---------------------------------------------------------------------------
  // The recording store
  // ---------------------------------------------------------------------------

  /** `FeedImageStoreSPY.Message`. */
  datatype Message =
    | RetrieveDataFor(url: Url)
    | InsertData(data: Data, url: Url)

  /** The closure handed to `insert(data:for:completion:)` by `save`. */
  datatype InsertionCompletion = SaveInsertion(loader: LocalFeedImageDataLoader)

  /** The closure handed to `retrieve(dataForURL:completion:)` by `loadImageData`: it captures only the task. */
  datatype RetrievalCompletion = CompleteTask(task: ImageDataLoadTask)

  /** How many retrieve messages a log holds. */
  function RetrievalCount(log: seq<Message>): (n: nat)
    ensures n <= |log|
  {
    if log == [] then 0
    else RetrievalCount(log[..|log| - 1]) + (if log[|log| - 1].RetrieveDataFor? then 1 else 0)
  }

  lemma RetrievalCountAppend(log: seq<Message>, m: Message)
    ensures RetrievalCount(log + [m]) == RetrievalCount(log) + (if m.RetrieveDataFor? then 1 else 0)
  {
    assert (log + [m])[..|log|] == log;
  }

  /** `FeedImageStoreSPY`: an ordered log of every message plus one completion queue per kind. */
  class FeedImageStoreSpy {
    var receivedMessages: seq<Message>
    var retrievalCompletions: seq<RetrievalCompletion>
    var insertionCompletions: seq<InsertionCompletion>

    /**
     * One retrieval completion per retrieve message, one insertion completion
     * per insert message, and every save closure belongs to a loader of this store.
     */
    ghost predicate Valid()
      reads this
    {
      && |retrievalCompletions| == RetrievalCount(receivedMessages)
      && |insertionCompletions| == |receivedMessages| - RetrievalCount(receivedMessages)
      && (forall i :: 0 <= i < |insertionCompletions| ==> insertionCompletions[i].loader.store == this)
    }

    constructor ()
      ensures Valid()
      ensures receivedMessages == [] && retrievalCompletions == [] && insertionCompletions == []
    {
      receivedMessages := [];
      retrievalCompletions := [];
      insertionCompletions := [];
    }

    /** `insert(data:for:completion:)`: log the bytes and URL unchanged, queue the completion. */
    method Insert(data: Data, url: Url, completion: InsertionCompletion)
      requires Valid() && completion.loader.store == this
      modifies this
      ensures Valid()
      ensures receivedMessages == old(receivedMessages) + [InsertData(data, url)]
      ensures insertionCompletions == old(insertionCompletions) + [completion]
      ensures retrievalCompletions == old(retrievalCompletions)
    {
      RetrievalCountAppend(receivedMessages, InsertData(data, url));
      receivedMessages := receivedMessages + [InsertData(data, url)];
      insertionCompletions := insertionCompletions + [completion];
    }

    /** `retrieve(dataForURL:completion:)`: log the URL, queue the completion. */
    method Retrieve(url: Url, completion: RetrievalCompletion)
      requires Valid()
      modifies this
      ensures Valid()
      ensures receivedMessages == old(receivedMessages) + [RetrieveDataFor(url)]
      ensures retrievalCompletions == old(retrievalCompletions) + [completion]
      ensures insertionCompletions == old(insertionCompletions)
    {
      RetrievalCountAppend(receivedMessages, RetrieveDataFor(url));
      receivedMessages := receivedMessages + [RetrieveDataFor(url)];
      retrievalCompletions := retrievalCompletions + [completion];
    }

    /**
     * `completeRetrival(with: Data?, at:)`: hand `success(data)` to the
     * index-th retrieval closure. Only that closure's task changes; the log
     * and the queues stay as they were.
     */
    method CompleteRetrieval(data: Option<Data>, index: nat)
      requires index < |retrievalCompletions|
      modifies retrievalCompletions[index].task
      ensures var task := retrievalCompletions[index].task;
        task.active == old(task.active) &&
        task.received == old(task.received) + (if task.active then [LoadImageDataOutcome(Success(data))] else [])
    {
      retrievalCompletions[index].task.Complete(LoadImageDataOutcome(Success(data)));
    }

    /** `completeRetrival(with: Error, at:)`: hand `failure(error)` to the index-th retrieval closure. */
    method CompleteRetrievalWithError(error: Error, index: nat)
      requires index < |retrievalCompletions|
      modifies retrievalCompletions[index].task
      ensures var task := retrievalCompletions[index].task;
        task.active == old(task.active) &&
        task.received == old(task.received) + (if task.active then [LoadImageDataOutcome(Failure(error))] else [])
    {
      retrievalCompletions[index].task.Complete(LoadImageDataOutcome(Failure(error)));
    }

    /** `completeInsertion(with:at:)`: hand `failure(error)` to the index-th insertion closure. */
    method CompleteInsertion(error: Error, index: nat)
      requires index < |insertionCompletions|
      modifies insertionCompletions[index].loader
      ensures var loader := insertionCompletions[index].loader;
        loader.alive == old(loader.alive) &&
        loader.saveResults == old(loader.saveResults) + (if loader.alive then [Failure(error)] else [])
    {
      insertionCompletions[index].loader.SaveInsertionCompleted(Failure(error));
    }
  }

  // ---------------------------------------------------------------------------
  // The use case
  // ---------------------------------------------------------------------------

  /**
   * `LocalFeedImageDataLoader.Task`: holds the caller's completion until
   * cancelled. `active` says the completion is still set, and `received` is
   * every result the caller's completion has been called with.
   */
  class ImageDataLoadTask {
    var active: bool
    var received: seq<ImageDataResult>

    constructor ()
      ensures active && received == []
    {
      active := true;
      received := [];
    }

    /** `complete(with:)`: call the completion if it is still set. */
    method Complete(result: ImageDataResult)
      modifies this
      ensures active == old(active)
      ensures received == old(received) + (if active then [result] else [])
    {
      if active {
        received := received + [result];
      }
    }

    /** `cancel()`: drop the completion, so that nothing is delivered afterwards. */
    method Cancel()
      modifies this
      ensures !active && received == old(received)
    {
      active := false;
    }
  }

  /** `LocalFeedImageDataLoader`: caches and loads image bytes by URL through a store. */
  class LocalFeedImageDataLoader {
    const store: FeedImageStoreSpy
    /** False once the owner has released the loader; save's `[weak self]` closure then returns early. */
    var alive: bool
    /** Every call of a save caller's completion, in order. */
    var saveResults: seq<SaveResult>

    /** `init(store:)`: keeps the store and sends it nothing. */
    constructor (store: FeedImageStoreSpy)
      ensures this.store == store && alive && saveResults == []
    {
      this.store := store;
      alive := true;
      saveResults := [];
    }

    /** The owner drops its last reference to the loader; the `[weak self]` of every pending closure now finds nil. */
    method Release()
      modifies this
      ensures !alive && saveResults == old(saveResults)
    {
      alive := false;
    }

    /** `save(_:for:completion:)`: forward the bytes and URL to the store, unchanged. */
    method Save(data: Data, url: Url)
      requires store.Valid()
      modifies store
      ensures store.Valid()
      ensures store.receivedMessages == old(store.receivedMessages) + [InsertData(data, url)]
      ensures store.insertionCompletions == old(store.insertionCompletions) + [SaveInsertion(this)]
      ensures store.retrievalCompletions == old(store.retrievalCompletions)
    {
      store.Insert(data, url, SaveInsertion(this));
    }

    /** The body of save's insertion closure: a live loader passes the store's result on unchanged. */
    method SaveInsertionCompleted(result: SaveResult)
      modifies this
      ensures alive == old(alive)
      ensures saveResults == old(saveResults) + (if alive then [result] else [])
    {
      if alive {
        saveResults := saveResults + [result];
      }
    }

    /**
     * `loadImageData(from:completion:)`: a new task, and a retrieve for the
     * URL whose closure completes that task with the mapped result.
     */
    method LoadImageData(url: Url) returns (task: ImageDataLoadTask)
      requires store.Valid()
      modifies store
      ensures fresh(task) && task.active && task.received == []
      ensures store.Valid()
      ensures store.receivedMessages == old(store.receivedMessages) + [RetrieveDataFor(url)]
      ensures store.retrievalCompletions == old(store.retrievalCompletions) + [CompleteTask(task)]
      ensures store.insertionCompletions == old(store.insertionCompletions)
    {
      task := new ImageDataLoadTask();
      store.Retrieve(url, CompleteTask(task));
    }
  }
}
