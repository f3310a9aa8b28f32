/**
 * LocalFeedLoader (save, load, validateCache) driven by FeedStoreSpy, the
 * recording store its use-case tests run it against.
 *
 * Every closure the loader hands to the store is written as a value of a
 * completion datatype that carries what the closure captures; the spy keeps
 * those values in per-kind queues and, when a test completes the i-th one,
 * runs the loader method that is the closure's body. `[weak self]` is the
 * loader's `alive` flag, and the caller's completion is an append to the
 * loader's `deliveries` log.
 */
module LocalFeedLoading {
  import opened Wrappers
  import opened FeedDomain
  import opened FeedStore
  import CachePolicy

  // ---------------------------------------------------------------------------
  // What load and validateCache decide from a retrieve outcome
  // ---------------------------------------------------------------------------

  /**
   * The result `load` delivers for a retrieve outcome seen at time `now`:
   * a store failure is passed on, a fresh cache is delivered mapped back to
   * the domain, an expired or empty cache is delivered as no images.
   */
  function LoadOutcome(result: RetrieveCachedFeedResult, now: Timestamp): (r: FeedLoaderResult)
    ensures r.Failure? <==> result.Failure?
    ensures result.Failure? ==> r.error == result.error
    ensures r.Success? && r.value != [] ==>
              result.Found? && CachePolicy.Validate(result.timestamp, now) && ToLocal(r.value) == result.feed
  {
    match result
    case Found(feed, timestamp) =>
      if CachePolicy.Validate(timestamp, now) then
        LocalOfModel(feed);
        Success(ToModel(feed))
      else
        Success([])
    case Failure(error) => Result.Failure(error)
    case Empty => Success([])
  }

  /** A fresh cache is delivered whole: the same images, in the same order. */
  lemma LoadDeliversFreshCache(feed: seq<LocalFeedImage>, timestamp: Timestamp, now: Timestamp)
    requires CachePolicy.Validate(timestamp, now)
    ensures LoadOutcome(Found(feed, timestamp), now).Success?
    ensures ToLocal(LoadOutcome(Found(feed, timestamp), now).value) == feed
  {
    LocalOfModel(feed);
  }

  /** A cache at least seven days old, or no cache at all, is delivered as no images. */
  lemma LoadDeliversNothingStale(result: RetrieveCachedFeedResult, now: Timestamp)
    requires result.Empty? || (result.Found? && now - result.timestamp >= CachePolicy.MaxCacheAge)
    ensures LoadOutcome(result, now) == Success([])
  {
  }

  /**
   * validateCache deletes after a retrieve exactly when it failed or found
   * an expired cache, one at least seven days old; an empty or fresh cache
   * is left alone.
   */
  function NeedsDeletion(result: RetrieveCachedFeedResult, now: Timestamp): (needed: bool)
    ensures needed <==> result.Failure? || (result.Found? && now - result.timestamp >= 604800)
  {
    match result
    case Found(_, timestamp) => !CachePolicy.Validate(timestamp, now)
    case Failure(_) => true
    case Empty => false
  }

  /**
   * Whenever validateCache keeps the cache, load delivers it: no retrieve
   * outcome makes load fail or drop images while validateCache keeps them.
   */
  lemma KeptCacheIsLoadable(result: RetrieveCachedFeedResult, now: Timestamp)
    requires !NeedsDeletion(result, now)
    ensures LoadOutcome(result, now).Success?
    ensures result.Found? ==> ToLocal(LoadOutcome(result, now).value) == result.feed
  {
    if result.Found? {
      LoadDeliversFreshCache(result.feed, result.timestamp, now);
    }
  }

  // ---------------------------------------------------------------------------
  // The recording store
  // ---------------------------------------------------------------------------

  /** `FeedStoreSpy.ReceivedMessage`, with the retrieve message the load and validate tests use. */
  datatype ReceivedMessage =
    | DeleteCacheFeed
    | Insert(items: seq<LocalFeedImage>, timestamp: Timestamp)
    | Retrieve

  /** The closures handed to `deleteCachedFeed`. */
  datatype DeletionCompletion =
    | SaveDeletion(loader: LocalFeedLoader, items: seq<FeedImage>)   // save's `[weak self] error in`
    | Discard                                                        // validateCache's `{_ in}`
  {
    predicate UsesStore(store: FeedStoreSpy) {
      SaveDeletion? ==> loader.store == store
    }
    function Captured(): set<object> {
      if SaveDeletion? then {loader} else {}
    }
  }

  /** The closure handed to `insert` by the loader's `cache(_:with:)`. */
  datatype InsertionCompletion = SaveInsertion(loader: LocalFeedLoader)

  /** The closures handed to `retrieve`. */
  datatype RetrievalCompletion =
    | LoadRetrieval(loader: LocalFeedLoader)       // load's `[weak self] result in`
    | ValidateRetrieval(loader: LocalFeedLoader)   // validateCache's `[weak self] result in`
  {
    predicate UsesStore(store: FeedStoreSpy) {
      loader.store == store
    }
  }

  datatype MessageKind = DeletionKind | InsertionKind | RetrievalKind

  function KindOf(m: ReceivedMessage): MessageKind {
    match m
    case DeleteCacheFeed => DeletionKind
    case Insert(_, _) => InsertionKind
    case Retrieve => RetrievalKind
  }

  /** How many messages of one kind a log holds. */
  function Count(log: seq<ReceivedMessage>, kind: MessageKind): (n: nat)
    ensures n <= |log|
  {
    if log == [] then 0
    else Count(log[..|log| - 1], kind) + (if KindOf(log[|log| - 1]) == kind then 1 else 0)
  }

  lemma CountAppend(log: seq<ReceivedMessage>, m: ReceivedMessage, kind: MessageKind)
    ensures Count(log + [m], kind) == Count(log, kind) + (if KindOf(m) == kind then 1 else 0)
  {
    assert (log + [m])[..|log|] == log;
  }

  /** `FeedStoreSpy`: an ordered log of every message plus one completion queue per kind. */
  class FeedStoreSpy {
    var receivedMessages: seq<ReceivedMessage>
    var deletionCompletions: seq<DeletionCompletion>
    var insertionCompletions: seq<InsertionCompletion>
    var retrievalCompletions: seq<RetrievalCompletion>

    /**
     * Each queue holds one completion per message of its kind in the log,
     * and every queued closure belongs to a loader talking to this store.
     */
    ghost predicate Valid()
      reads this
    {
      && |deletionCompletions| == Count(receivedMessages, DeletionKind)
      && |insertionCompletions| == Count(receivedMessages, InsertionKind)
      && |retrievalCompletions| == Count(receivedMessages, RetrievalKind)
      && (forall i :: 0 <= i < |deletionCompletions| ==> deletionCompletions[i].UsesStore(this))
      && (forall i :: 0 <= i < |insertionCompletions| ==> insertionCompletions[i].loader.store == this)
      && (forall i :: 0 <= i < |retrievalCompletions| ==> retrievalCompletions[i].UsesStore(this))
    }

    constructor ()
      ensures Valid()
      ensures receivedMessages == []
      ensures deletionCompletions == [] && insertionCompletions == [] && retrievalCompletions == []
    {
      receivedMessages := [];
      deletionCompletions := [];
      insertionCompletions := [];
      retrievalCompletions := [];
    }

    /** `deleteCachedFeed(completion:)`: log the message, queue the completion. */
    method DeleteCachedFeed(completion: DeletionCompletion)
      requires Valid() && completion.UsesStore(this)
      modifies this
      ensures Valid()
      ensures receivedMessages == old(receivedMessages) + [DeleteCacheFeed]
      ensures deletionCompletions == old(deletionCompletions) + [completion]
      ensures insertionCompletions == old(insertionCompletions)
      ensures retrievalCompletions == old(retrievalCompletions)
    {
      CountAppend(receivedMessages, DeleteCacheFeed, DeletionKind);
      CountAppend(receivedMessages, DeleteCacheFeed, InsertionKind);
      CountAppend(receivedMessages, DeleteCacheFeed, RetrievalKind);
      receivedMessages := receivedMessages + [DeleteCacheFeed];
      deletionCompletions := deletionCompletions + [completion];
    }

    /** `insert(_:timestamp:completion:)`: log the items and timestamp unchanged, queue the completion. */
    method Insert(items: seq<LocalFeedImage>, timestamp: Timestamp, completion: InsertionCompletion)
      requires Valid() && completion.loader.store == this
      modifies this
      ensures Valid()
      ensures receivedMessages == old(receivedMessages) + [ReceivedMessage.Insert(items, timestamp)]
      ensures insertionCompletions == old(insertionCompletions) + [completion]
      ensures deletionCompletions == old(deletionCompletions)
      ensures retrievalCompletions == old(retrievalCompletions)
    {
      var m := ReceivedMessage.Insert(items, timestamp);
      CountAppend(receivedMessages, m, DeletionKind);
      CountAppend(receivedMessages, m, InsertionKind);
      CountAppend(receivedMessages, m, RetrievalKind);
      receivedMessages := receivedMessages + [m];
      insertionCompletions := insertionCompletions + [completion];
    }

    /** `retrieve(completion:)`: log the message, queue the completion. */
    method Retrieve(completion: RetrievalCompletion)
      requires Valid() && completion.UsesStore(this)
      modifies this
      ensures Valid()
      ensures receivedMessages == old(receivedMessages) + [ReceivedMessage.Retrieve]
      ensures retrievalCompletions == old(retrievalCompletions) + [completion]
      ensures deletionCompletions == old(deletionCompletions)
      ensures insertionCompletions == old(insertionCompletions)
    {
      var m := ReceivedMessage.Retrieve;
      CountAppend(receivedMessages, m, DeletionKind);
      CountAppend(receivedMessages, m, InsertionKind);
      CountAppend(receivedMessages, m, RetrievalKind);
      receivedMessages := receivedMessages + [m];
      retrievalCompletions := retrievalCompletions + [completion];
    }

    /** `completeDeletion(with:at:)`: run the index-th deletion closure with the error. */
    method CompleteDeletion(error: Error, index: nat)
      requires Valid() && index < |deletionCompletions|
      modifies this, deletionCompletions[index].Captured()
      ensures Valid()
      ensures deletionCompletions == old(deletionCompletions)
      ensures retrievalCompletions == old(retrievalCompletions)
      ensures receivedMessages == old(receivedMessages)
      ensures insertionCompletions == old(insertionCompletions)
      ensures var c := old(deletionCompletions[index]);
        c.SaveDeletion? ==>
          c.loader.alive == old(c.loader.alive) &&
          c.loader.deliveries == old(c.loader.deliveries) + (if c.loader.alive then [SaveCompleted(Some(error))] else [])
    {
      RunDeletion(Some(error), index);
    }

    /** `compleDeletionSuccessfully(at:)`: run the index-th deletion closure with no error. */
    method CompleteDeletionSuccessfully(index: nat)
      requires Valid() && index < |deletionCompletions|
      modifies this, deletionCompletions[index].Captured()
      ensures Valid()
      ensures deletionCompletions == old(deletionCompletions)
      ensures retrievalCompletions == old(retrievalCompletions)
      ensures var c := old(deletionCompletions[index]);
        c.SaveDeletion? ==> c.loader.alive == old(c.loader.alive)
      ensures var c := old(deletionCompletions[index]);
        if c.SaveDeletion? && c.loader.alive then
          && receivedMessages == old(receivedMessages) + [ReceivedMessage.Insert(ToLocal(c.items), c.loader.currentDate)]
          && insertionCompletions == old(insertionCompletions) + [SaveInsertion(c.loader)]
          && c.loader.alive
          && c.loader.deliveries == old(c.loader.deliveries)
        else
          && receivedMessages == old(receivedMessages)
          && insertionCompletions == old(insertionCompletions)
          && (c.SaveDeletion? ==> !c.loader.alive && c.loader.deliveries == old(c.loader.deliveries))
    {
      RunDeletion(None, index);
    }

    method RunDeletion(error: Option<Error>, index: nat)
      requires Valid() && index < |deletionCompletions|
      modifies this, deletionCompletions[index].Captured()
      ensures Valid()
      ensures deletionCompletions == old(deletionCompletions)
      ensures retrievalCompletions == old(retrievalCompletions)
      ensures var c := old(deletionCompletions[index]);
        c.SaveDeletion? ==> c.loader.alive == old(c.loader.alive)
      ensures var c := old(deletionCompletions[index]);
        if c.SaveDeletion? && c.loader.alive && error.None? then
          && receivedMessages == old(receivedMessages) + [ReceivedMessage.Insert(ToLocal(c.items), c.loader.currentDate)]
          && insertionCompletions == old(insertionCompletions) + [SaveInsertion(c.loader)]
          && c.loader.alive
          && c.loader.deliveries == old(c.loader.deliveries)
        else
          && receivedMessages == old(receivedMessages)
          && insertionCompletions == old(insertionCompletions)
          && (c.SaveDeletion? ==>
                c.loader.alive == old(c.loader.alive) &&
                c.loader.deliveries == old(c.loader.deliveries) + (if c.loader.alive then [SaveCompleted(error)] else []))
    {
      var c := deletionCompletions[index];
      match c
      case SaveDeletion(loader, items) =>
        loader.SaveDeletionCompleted(items, error);
      case Discard =>
    }

    /** `completeInsertion(with:at:)`: run the index-th insertion closure with the error. */
    method CompleteInsertion(error: Error, index: nat)
      requires Valid() && index < |insertionCompletions|
      modifies insertionCompletions[index].loader
      ensures var loader := insertionCompletions[index].loader;
        loader.alive == old(loader.alive) &&
        loader.deliveries == old(loader.deliveries) + (if loader.alive then [SaveCompleted(Some(error))] else [])
    {
      insertionCompletions[index].loader.SaveInsertionCompleted(Some(error));
    }

    /** `completeInsertionSuccessfully(at:)`: run the index-th insertion closure with no error. */
    method CompleteInsertionSuccessfully(index: nat)
      requires Valid() && index < |insertionCompletions|
      modifies insertionCompletions[index].loader
      ensures var loader := insertionCompletions[index].loader;
        loader.alive == old(loader.alive) &&
        loader.deliveries == old(loader.deliveries) + (if loader.alive then [SaveCompleted(None)] else [])
    {
      insertionCompletions[index].loader.SaveInsertionCompleted(None);
    }

    /**
     * The retrieve extension's `completeRetrival(...)`: run the index-th
     * retrieval closure with an empty, found or failed outcome.
     */
    method CompleteRetrieval(result: RetrieveCachedFeedResult, index: nat)
      requires Valid() && index < |retrievalCompletions|
      modifies this, retrievalCompletions[index].loader
      ensures Valid()
      ensures retrievalCompletions == old(retrievalCompletions)
      ensures insertionCompletions == old(insertionCompletions)
      ensures var loader := old(retrievalCompletions[index].loader);
        loader.alive == old(loader.alive)
      ensures var c := old(retrievalCompletions[index]);
        c.LoadRetrieval? ==>
          && receivedMessages == old(receivedMessages)
          && deletionCompletions == old(deletionCompletions)
          && c.loader.deliveries == old(c.loader.deliveries) +
               (if c.loader.alive then [LoadCompleted(LoadOutcome(result, c.loader.currentDate))] else [])
      ensures var c := old(retrievalCompletions[index]);
        c.ValidateRetrieval? ==>
          && c.loader.deliveries == old(c.loader.deliveries)
          && if c.loader.alive && NeedsDeletion(result, c.loader.currentDate) then
               receivedMessages == old(receivedMessages) + [DeleteCacheFeed] &&
               deletionCompletions == old(deletionCompletions) + [Discard]
             else
               receivedMessages == old(receivedMessages) &&
               deletionCompletions == old(deletionCompletions)
    {
      var c := retrievalCompletions[index];
      match c
      case LoadRetrieval(loader) =>
        loader.LoadRetrievalCompleted(result);
      case ValidateRetrieval(loader) =>
        loader.ValidateRetrievalCompleted(result);
    }
  }

  // ---------------------------------------------------------------------------
  // The use case
  // ---------------------------------------------------------------------------

  /** What the loader hands to the caller's completion. */
  datatype Delivery =
    | SaveCompleted(error: Option<Error>)        // save's `(Error?) -> Void`
    | LoadCompleted(result: FeedLoaderResult)    // load's `(FeedLoaderResult) -> Void`

  /** `LocalFeedLoader`: the feed cache use case over an injected store and clock. */
  class LocalFeedLoader {
    const store: FeedStoreSpy
    /** The injected clock `timestamp: () -> Date`, read whenever the loader needs the current date. */
    const currentDate: Timestamp
    /** False once the owner has released the loader (`sut = nil`); every `[weak self]` closure then returns early. */
    var alive: bool
    /** Every call of a caller's completion, in order. */
    var deliveries: seq<Delivery>

    /** `init(store:timestamp:)`: keeps its collaborators and sends the store nothing. */
    constructor (store: FeedStoreSpy, timestamp: Timestamp)
      ensures this.store == store && currentDate == timestamp
      ensures alive && deliveries == []
    {
      this.store := store;
      currentDate := timestamp;
      alive := true;
      deliveries := [];
    }

    /** The owner drops its last reference to the loader. */
    method Release()
      modifies this
      ensures !alive && deliveries == old(deliveries)
    {
      alive := false;
    }

    /** `save(_:completion:)`: first ask the store to delete the cache. */
    method Save(items: seq<FeedImage>)
      requires alive && store.Valid()
      modifies store
      ensures store.Valid()
      ensures store.receivedMessages == old(store.receivedMessages) + [DeleteCacheFeed]
      ensures store.deletionCompletions == old(store.deletionCompletions) + [SaveDeletion(this, items)]
      ensures store.insertionCompletions == old(store.insertionCompletions)
      ensures store.retrievalCompletions == old(store.retrievalCompletions)
    {
      store.DeleteCachedFeed(SaveDeletion(this, items));
    }

    /**
     * The body of save's deletion closure: a released loader does nothing; a
     * deletion error goes to the caller and stops the save; otherwise the
     * items are inserted with the current date (`cache(_:with:)`).
     */
    method SaveDeletionCompleted(items: seq<FeedImage>, error: Option<Error>)
      requires store.Valid()
      modifies this, store
      ensures store.Valid()
      ensures alive == old(alive)
      ensures store.deletionCompletions == old(store.deletionCompletions)
      ensures store.retrievalCompletions == old(store.retrievalCompletions)
      ensures if alive && error.None? then
          && store.receivedMessages == old(store.receivedMessages) + [ReceivedMessage.Insert(ToLocal(items), currentDate)]
          && store.insertionCompletions == old(store.insertionCompletions) + [SaveInsertion(this)]
          && deliveries == old(deliveries)
        else
          && store.receivedMessages == old(store.receivedMessages)
          && store.insertionCompletions == old(store.insertionCompletions)
          && deliveries == old(deliveries) + (if alive then [SaveCompleted(error)] else [])
    {
      if !alive {
        return;
      }
      if error.Some? {
        deliveries := deliveries + [SaveCompleted(error)];
      } else {
        store.Insert(ToLocal(items), currentDate, SaveInsertion(this));
      }
    }

    /** The body of the insertion closure: a live loader passes the insertion error, or nil, to the caller. */
    method SaveInsertionCompleted(error: Option<Error>)
      modifies this
      ensures alive == old(alive)
      ensures deliveries == old(deliveries) + (if alive then [SaveCompleted(error)] else [])
    {
      if alive {
        deliveries := deliveries + [SaveCompleted(error)];
      }
    }

    /** `load(completion:)`: ask the store for the cache. */
    method Load()
      requires alive && store.Valid()
      modifies store
      ensures store.Valid()
      ensures store.receivedMessages == old(store.receivedMessages) + [ReceivedMessage.Retrieve]
      ensures store.retrievalCompletions == old(store.retrievalCompletions) + [LoadRetrieval(this)]
      ensures store.deletionCompletions == old(store.deletionCompletions)
      ensures store.insertionCompletions == old(store.insertionCompletions)
    {
      store.Retrieve(LoadRetrieval(this));
    }

    /** The body of load's retrieval closure: a live loader delivers the classified result and sends nothing. */
    method LoadRetrievalCompleted(result: RetrieveCachedFeedResult)
      modifies this
      ensures alive == old(alive)
      ensures deliveries == old(deliveries) + (if alive then [LoadCompleted(LoadOutcome(result, currentDate))] else [])
    {
      if alive {
        deliveries := deliveries + [LoadCompleted(LoadOutcome(result, currentDate))];
      }
    }

    /** `validateCache()`: ask the store for the cache. */
    method ValidateCache()
      requires alive && store.Valid()
      modifies store
      ensures store.Valid()
      ensures store.receivedMessages == old(store.receivedMessages) + [ReceivedMessage.Retrieve]
      ensures store.retrievalCompletions == old(store.retrievalCompletions) + [ValidateRetrieval(this)]
      ensures store.deletionCompletions == old(store.deletionCompletions)
      ensures store.insertionCompletions == old(store.insertionCompletions)
    {
      store.Retrieve(ValidateRetrieval(this));
    }

    /**
     * The body of validateCache's retrieval closure: a live loader deletes a
     * failed or expired cache, ignoring the deletion's outcome, and delivers
     * nothing.
     */
    method ValidateRetrievalCompleted(result: RetrieveCachedFeedResult)
      requires store.Valid()
      modifies store
      ensures store.Valid()
      ensures store.insertionCompletions == old(store.insertionCompletions)
      ensures store.retrievalCompletions == old(store.retrievalCompletions)
      ensures if alive && NeedsDeletion(result, currentDate) then
          store.receivedMessages == old(store.receivedMessages) + [DeleteCacheFeed] &&
          store.deletionCompletions == old(store.deletionCompletions) + [Discard]
        else
          store.receivedMessages == old(store.receivedMessages) &&
          store.deletionCompletions == old(store.deletionCompletions)
    {
      if alive && NeedsDeletion(result, currentDate) {
        store.DeleteCachedFeed(Discard);
      }
    }
  }
}
