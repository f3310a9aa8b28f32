# EssentialFeed feed caching, loading and presentation, in Dafny

This project models the use-case layer of the EssentialFeed iOS sample (Swift).
Each part below is written as a Dafny module.

- **FeedStoreSpy and LocalFeedLoader.** The spy is the recording feed store the cache tests drive. It keeps an ordered message log and one queue of pending completions per kind (deletion, insertion, retrieval).
  - `save` deletes the cache, then inserts the images with the clock's date.
  - `load` retrieves, then classifies the outcome with the seven-day freshness rule of `FeedCachePolicy`.
  - `validateCache` retrieves, then deletes a failed or expired cache.
- **Reference feed store.** A single overwritable slot with injectable failures stands for every `FeedStore` backend.
  - The store conformance assertions of `XCTestCase+FeedStoreSpecs` are lemmas about it.
  - A store that runs submitted operations one at a time shows the serial-side-effects assertion.
- **FeedImageStoreSPY and LocalFeedImageDataLoader.** Image bytes are cached by URL.
  - A load maps a store error, missing bytes, or found bytes to its result.
  - A load returns a task that can be cancelled.
- **RemoteFeedImageDataLoader and its HTTPClientSPY.** The mapping of status code, emptiness and client error to an image-data result.
  - The loader declared in the test file is modelled as written.
  - An intended loader completes every response, as the library's loader does.
- **RemoteFeedLoader and its HTTPClientSpy.** The status and JSON mapping to a feed. Decoding of `Root`/`Item` is modelled over a JSON value datatype, together with the JSON shape the tests build.
- **FeedImagePresenter and FeedPresenter.** The event-to-view-model mappings.

Three modelling conventions run through the stateful parts:

- **Closures.** Every closure a loader hands to a store or HTTP client is a value of a completion datatype that carries what the closure captures. A spy's `CompleteX(..., index)` runs the loader method that is the closure's body.
- **Weak references.** A loader's `[weak self]` is its `alive` flag. `Release()` is the owner setting its reference to `nil`.
- **Caller completions.** Each call of a caller's completion is an append to a log on the loader, or on the task for image loads.

Each test case is a method without `modifies`. It builds a fresh spy and loader, performs the test's steps, and returns what the test observes. Its postcondition is the test's assertion, proved from the contracts of the spy and the loader.

Two facts about the spy's log are proved:

- The spy's own completion code never changes its message log.
- The log grows during a completion only when the loader's continuation sends a new message: the insert that follows a successful deletion, or the delete `validateCache` sends.

## Model

| member | source | states |
|---|---|---|
| `FeedDomain.ToLocal` | EssentialFeedTests/FeedCache/CacheFeedUseCaseTests.swift:41 | `toLocal()` keeps the length, and element k of the cache form has the id, description, location and url of element k of the feed (in the library, `LocalFeedLoader.swift` lines 95-99) |
| `FeedDomain.ToModel` | EssentialFeedTests/FeedCache/LoadFeedFromCacheUseCaseTests.swift:42-47 | `toModel()` keeps the length, and element k of the feed has the id, description, location and url of element k of the cached images (in the library, `LocalFeedLoader.swift` lines 89-93) |
| `FeedDomain.ModelOfLocal` | EssentialFeedTests/FeedCache/LoadFeedFromCacheUseCaseTests.swift:41-47 | `toModel()` after `toLocal()` gives back the same feed, in order (in the library, `LocalFeedLoader.swift` lines 89-99) |
| `FeedDomain.LocalOfModel` | EssentialFeedTests/FeedCache/CacheFeedUseCaseTests.swift:41-47 | `toLocal()` after `toModel()` gives back the same cached images (in the library, `LocalFeedLoader.swift` lines 89-99) |
| `FeedDomain.ToLocalInjective` | EssentialFeedTests/FeedCache/CacheFeedUseCaseTests.swift:41-47 | distinct feeds are cached as distinct local feeds (in the library, `LocalFeedLoader.swift` lines 95-99) |
| `FeedDomain.ParseUuid` | EssentialFeedTests/FeedAPI/RemoteFeedLoaderTests.swift:127-131 | UUID text of either case is accepted exactly when it has the canonical layout, and becomes its upper-case form (in the library, `RemoteFeedLoader.swift` lines 60) |
| `FeedDomain.ParseUuidOfUuidString` | EssentialFeedTests/FeedAPI/RemoteFeedLoaderTests.swift:131 | a UUID's `uuidString` decodes back to the same UUID |
| `CachePolicy.Validate` | EssentialFeedTests/FeedCache/LoadFeedFromCacheUseCaseTests.swift:39-49 | a cache is fresh exactly when its age at the given date is below seven days of 86400 seconds, 604800 seconds (in the library, `FeedCachePolicy.swift` lines 14-22) |
| `CachePolicy.Boundary` | EssentialFeedTests/FeedCache/LoadFeedFromCacheUseCaseTests.swift:44 | seven days old is expired, one second younger is valid, one second older is expired |
| `CachePolicy.Monotonic` | EssentialFeedTests/FeedCache/LoadFeedFromCacheUseCaseTests.swift:39-49 | a valid cache stays valid against an earlier date, and any newer cache is valid too (in the library, `FeedCachePolicy.swift` lines 18-22) |
| `LocalFeedLoading.LoadOutcome` | EssentialFeedTests/FeedCache/LoadFeedFromCacheUseCaseTests.swift:24-49 | load fails exactly when the retrieve failed, with the same error; any non-empty feed it delivers is a fresh found cache mapped back unchanged (in the library, `LocalFeedLoader.swift` lines 77-84) |
| `LocalFeedLoading.LoadDeliversFreshCache` | EssentialFeedTests/FeedCache/LoadFeedFromCacheUseCaseTests.swift:39-49 | a found cache younger than seven days is delivered as the same images, in order (in the library, `LocalFeedLoader.swift` lines 78-79) |
| `LocalFeedLoading.LoadDeliversNothingStale` | EssentialFeedTests/FeedCache/LoadFeedFromCacheUseCaseTests.swift:32-37 | an empty cache, or one at least seven days old, is delivered as no images (in the library, `LocalFeedLoader.swift` lines 82-83) |
| `LocalFeedLoading.NeedsDeletion` | EssentialFeedTests/FeedCache/ValidateFeedUseCaseTests.swift:18-35 | validateCache deletes exactly after a retrieval failure or a found cache at least 604800 seconds (seven days) old; an empty or fresh cache is kept (in the library, `LocalFeedLoader.swift` lines 41-48) |
| `LocalFeedLoading.KeptCacheIsLoadable` | EssentialFeedTests/FeedCache/ValidateFeedUseCaseTests.swift:28-35 | whatever validateCache keeps, load delivers successfully and without dropping images (in the library, `LocalFeedLoader.swift` lines 38-87) |
| `LocalFeedLoading.FeedStoreSpy.constructor` | EssentialFeedTests/FeedCache/Helpers/FeedStoreSpy.swift:22-25 | a fresh spy has an empty log and empty completion queues |
| `LocalFeedLoading.FeedStoreSpy.DeleteCachedFeed` | EssentialFeedTests/FeedCache/Helpers/FeedStoreSpy.swift:27-30 | appends exactly one `deleteCacheFeed` and queues exactly one deletion completion; nothing else changes |
| `LocalFeedLoading.FeedStoreSpy.Insert` | EssentialFeedTests/FeedCache/Helpers/FeedStoreSpy.swift:32-36 | appends exactly one `insert` with the items and timestamp unchanged and queues one insertion completion |
| `LocalFeedLoading.FeedStoreSpy.Retrieve` | EssentialFeedTests/FeedCache/LoadFeedFromCacheUseCaseTests.swift:18-22 | the retrieve extension: appends exactly one `retrieve` and queues one retrieval completion |
| `LocalFeedLoading.FeedStoreSpy.CompleteDeletion` | EssentialFeedTests/FeedCache/Helpers/FeedStoreSpy.swift:38-40 | runs the index-th deletion completion with the error: the log and queues stay unchanged, and a live saving loader delivers that error |
| `LocalFeedLoading.FeedStoreSpy.CompleteDeletionSuccessfully` | EssentialFeedTests/FeedCache/Helpers/FeedStoreSpy.swift:42-44 | runs the index-th deletion completion with nil: a live saving loader's insert is the only log change; otherwise nothing changes |
| `LocalFeedLoading.FeedStoreSpy.RunDeletion` | EssentialFeedTests/FeedCache/Helpers/FeedStoreSpy.swift:38-44 | the shared body of both deletion completions, with the error as an option |
| `LocalFeedLoading.FeedStoreSpy.CompleteInsertion` | EssentialFeedTests/FeedCache/Helpers/FeedStoreSpy.swift:46-48 | runs the index-th insertion completion with the error; a live loader delivers it |
| `LocalFeedLoading.FeedStoreSpy.CompleteInsertionSuccessfully` | EssentialFeedTests/FeedCache/Helpers/FeedStoreSpy.swift:50-52 | runs the index-th insertion completion with nil; a live loader delivers nil |
| `LocalFeedLoading.FeedStoreSpy.CompleteRetrieval` | EssentialFeedTests/FeedCache/LoadFeedFromCacheUseCaseTests.swift:28-47 | runs the index-th retrieval completion with an empty, found or failed result: load delivers `LoadOutcome` and sends nothing; validateCache sends one delete exactly when it needs deletion |
| `LocalFeedLoading.LocalFeedLoader.constructor` | EssentialFeedTests/FeedCache/CacheFeedUseCaseTests.swift:133-141 | keeps the store and clock and sends nothing (in the library, `LocalFeedLoader.swift` lines 30-33) |
| `LocalFeedLoading.LocalFeedLoader.Release` | EssentialFeedTests/FeedCache/CacheFeedUseCaseTests.swift:96 | the owner drops the loader; nothing is delivered by the release itself |
| `LocalFeedLoading.LocalFeedLoader.Save` | EssentialFeedTests/FeedCache/CacheFeedUseCaseTests.swift:18-24 | save's first and only immediate message is a deletion (in the library, `LocalFeedLoader.swift` lines 54-55) |
| `LocalFeedLoading.LocalFeedLoader.SaveDeletionCompleted` | EssentialFeedTests/FeedCache/CacheFeedUseCaseTests.swift:26-57 | released: nothing; deletion error: delivered, no insert; success: one insert of `toLocal(items)` with the current date (in the library, `LocalFeedLoader.swift` lines 55-66) |
| `LocalFeedLoading.LocalFeedLoader.SaveInsertionCompleted` | EssentialFeedTests/FeedCache/CacheFeedUseCaseTests.swift:59-84 | a live loader delivers the insertion error or nil; a released one delivers nothing (in the library, `LocalFeedLoader.swift` lines 66-69) |
| `LocalFeedLoading.LocalFeedLoader.Load` | EssentialFeedTests/FeedCache/LoadFeedFromCacheUseCaseTests.swift:18-22 | load sends exactly one retrieve (in the library, `LocalFeedLoader.swift` lines 74-75) |
| `LocalFeedLoading.LocalFeedLoader.LoadRetrievalCompleted` | EssentialFeedTests/FeedCache/LoadFeedFromCacheUseCaseTests.swift:51-70 | a live loader delivers the classified result once; a released one delivers nothing (in the library, `LocalFeedLoader.swift` lines 75-85) |
| `LocalFeedLoading.LocalFeedLoader.ValidateCache` | EssentialFeedTests/FeedCache/ValidateFeedUseCaseTests.swift:18-25 | validateCache begins with exactly one retrieve (in the library, `LocalFeedLoader.swift` lines 38-39) |
| `LocalFeedLoading.LocalFeedLoader.ValidateRetrievalCompleted` | EssentialFeedTests/FeedCache/ValidateFeedUseCaseTests.swift:18-35 | a live loader sends one delete, with a completion that ignores its outcome, exactly when the cache needs deletion; nothing is delivered (in the library, `LocalFeedLoader.swift` lines 39-49) |
| `FeedCacheScenarios.InitSendsNoMessage` | EssentialFeedTests/FeedCache/CacheFeedUseCaseTests.swift:13-16 | creating the loader sends the store nothing |
| `FeedCacheScenarios.SaveRequestsCacheDeletion` | EssentialFeedTests/FeedCache/CacheFeedUseCaseTests.swift:18-24 | save sends exactly `[deleteCacheFeed]` and delivers nothing yet |
| `FeedCacheScenarios.SaveFailsOnDeletionError` | EssentialFeedTests/FeedCache/CacheFeedUseCaseTests.swift:26-35 | after a deletion error the log stays `[deleteCacheFeed]`, and the same error is the save result (lines 50-57) |
| `FeedCacheScenarios.SaveInsertsWithTimestampOnSuccessfulDeletion` | EssentialFeedTests/FeedCache/CacheFeedUseCaseTests.swift:37-48 | after a successful deletion the log is `[deleteCacheFeed, insert(localItems, now)]`, with the images mapped field by field, in order |
| `FeedCacheScenarios.SaveFailsOnInsertionError` | EssentialFeedTests/FeedCache/CacheFeedUseCaseTests.swift:59-67 | the insertion error is the save result, unchanged |
| `FeedCacheScenarios.SaveSucceedsOnSuccessfulInsertion` | EssentialFeedTests/FeedCache/CacheFeedUseCaseTests.swift:69-84 | a successful insertion completes the save with nil, once |
| `FeedCacheScenarios.SaveDeliversNothingAfterReleaseBeforeDeletion` | EssentialFeedTests/FeedCache/CacheFeedUseCaseTests.swift:86-100 | released before the deletion completes: nothing delivered and no insert |
| `FeedCacheScenarios.SaveDeliversNothingAfterReleaseBeforeInsertion` | EssentialFeedTests/FeedCache/CacheFeedUseCaseTests.swift:102-117 | released before the insertion completes: nothing delivered |
| `FeedCacheScenarios.LoadRequestsRetrieve` | EssentialFeedTests/FeedCache/LoadFeedFromCacheUseCaseTests.swift:18-22 | load sends exactly `[retrieve]` |
| `FeedCacheScenarios.LoadCompletesWith` | EssentialFeedTests/FeedCache/LoadFeedFromCacheUseCaseTests.swift:24-37 | for any retrieve outcome: one delivery; failure gives the same error; empty or expired gives `success([])`; the log stays `[retrieve]` |
| `FeedCacheScenarios.LoadDeliversLessThanSevenDaysOldCache` | EssentialFeedTests/FeedCache/LoadFeedFromCacheUseCaseTests.swift:39-49 | a cache one second younger than seven days is delivered as the same feed |
| `FeedCacheScenarios.ValidateDeletesOnRetrievalError` | EssentialFeedTests/FeedCache/ValidateFeedUseCaseTests.swift:18-26 | after a retrieval error the log is `[retrieve, deleteCacheFeed]` |
| `FeedCacheScenarios.ValidateKeepsEmptyCache` | EssentialFeedTests/FeedCache/ValidateFeedUseCaseTests.swift:28-35 | on an empty cache the log stays `[retrieve]` |
| `FeedCacheScenarios.ValidateAndLoadOnFoundCache` | EssentialFeedTests/FeedCache/ValidateFeedUseCaseTests.swift:18-35 | validateCache deletes a found cache exactly when it is at least seven days old; load on the same outcome never deletes (in the library, `LocalFeedLoader.swift` lines 38-50) |
| `ReferenceFeedStore.Retrieve` | EssentialFeedTests/FeedCache/Helpers/XCTestCase+FeedStoreSpecs.swift:13-48 | retrieve fails exactly when the store's retrieval fails, is empty exactly on a working empty slot, and otherwise finds the slot's content (in the library, `FeedStore.swift` lines 10-14) |
| `ReferenceFeedStore.Apply` | EssentialFeedTests/FeedCache/Helpers/XCTestCase+FeedStoreSpecs.swift:50-103 | retrieve changes nothing; a working insert replaces the slot; a working delete empties it; a failing one reports its error and changes nothing |
| `ReferenceFeedStore.Matches` | EssentialFeedTests/FeedCache/Helpers/XCTestCase+FeedStoreSpecs.swift:159-179 | `expect(_:toRetrieve:)` accepts a result exactly when it equals the expected one, except that any failure matches any failure |
| `ReferenceFeedStore.RetrieveHasNoSideEffects` | EssentialFeedTests/FeedCache/Helpers/XCTestCase+FeedStoreSpecs.swift:17-48 | any number of retrieves leaves the store unchanged and delivers the same outcome each time |
| `ReferenceFeedStore.RetrieveDeliversEmptyOnEmptyCache` | EssentialFeedTests/FeedCache/Helpers/XCTestCase+FeedStoreSpecs.swift:13-20 | an empty store retrieves empty, twice |
| `ReferenceFeedStore.RetrieveDeliversFoundValuesOnNonEmptyCache` | EssentialFeedTests/FeedCache/Helpers/XCTestCase+FeedStoreSpecs.swift:22-39 | after an insert, retrieve finds the same feed and timestamp, twice |
| `ReferenceFeedStore.RetrieveDeliversFailureOnRetrievalError` | EssentialFeedTests/FeedCache/Helpers/XCTestCase+FeedStoreSpecs.swift:41-48 | a failing store retrieves a failure, twice; failures match by case only (line 171) |
| `ReferenceFeedStore.InsertOverridesPreviouslyInsertedCache` | EssentialFeedTests/FeedCache/Helpers/XCTestCase+FeedStoreSpecs.swift:50-62 | both inserts succeed and only the newer feed is found |
| `ReferenceFeedStore.InsertFailsWithoutSideEffects` | EssentialFeedTests/FeedCache/Helpers/XCTestCase+FeedStoreSpecs.swift:64-80 | a failing insert reports an error and the empty store stays empty |
| `ReferenceFeedStore.DeleteDoesNothingOnEmptyCache` | EssentialFeedTests/FeedCache/Helpers/XCTestCase+FeedStoreSpecs.swift:82-87 | deleting an empty store succeeds and leaves it unchanged and empty |
| `ReferenceFeedStore.DeleteDeletesDataOnNonEmptyCache` | EssentialFeedTests/FeedCache/Helpers/XCTestCase+FeedStoreSpecs.swift:89-98 | a delete after a successful insert succeeds and leaves the store empty |
| `ReferenceFeedStore.DeleteDeliversAnErrorOnDeletionError` | EssentialFeedTests/FeedCache/Helpers/XCTestCase+FeedStoreSpecs.swift:100-103 | a failing delete reports an error |
| `ReferenceFeedStore.RunAppend` | EssentialFeedTests/FeedCache/Helpers/XCTestCase+FeedStoreSpecs.swift:133-157 | running one more operation applies it to the state the earlier ones left |
| `ReferenceFeedStore.LastWriteWins` | EssentialFeedTests/FeedCache/Helpers/XCTestCase+FeedStoreSpecs.swift:50-98 | on a working store, after any operations, the slot holds what the last insert or delete left |
| `ReferenceFeedStore.IdsAppend` | EssentialFeedTests/FeedCache/Helpers/XCTestCase+FeedStoreSpecs.swift:107-126 | completion order extends by the appended submission |
| `ReferenceFeedStore.SerialFeedStore.constructor` | EssentialFeedTests/FeedCache/Helpers/XCTestCase+FeedStoreSpecs.swift:105-107 | a new serial store has nothing pending and nothing completed |
| `ReferenceFeedStore.SerialFeedStore.Submit` | EssentialFeedTests/FeedCache/Helpers/XCTestCase+FeedStoreSpecs.swift:110-126 | an operation is queued with a fresh completion id and nothing runs |
| `ReferenceFeedStore.SerialFeedStore.Drain` | EssentialFeedTests/FeedCache/Helpers/XCTestCase+FeedStoreSpecs.swift:105-131 | every pending operation runs, oldest first: the state is the sequential run, and completions are called in submission order |
| `ReferenceFeedStore.StoreSideEffectsRunSerially` | EssentialFeedTests/FeedCache/Helpers/XCTestCase+FeedStoreSpecs.swift:105-131 | insert, delete, insert complete as `[op1, op2, op3]`, and the last insert's feed is what stays |
| `ImageDataCache.LoadImageDataOutcome` | EssentialFeedTests/FeedImageLoader/LoadFeedImageDataUseCaseTests.swift:27-49 | success exactly when the store found bytes, which are delivered unchanged; a store error is passed on; no bytes is `notFound` (in the library, `LocalFeedImageDataLoader.swift` lines 57-63) |
| `ImageDataCache.LoadImageDataOutcomeInjective` | EssentialFeedTests/FeedImageLoader/LoadFeedImageDataUseCaseTests.swift:27-49 | when the store itself never reports `notFound`, the delivery determines the store's answer: an empty store is told apart from a failing one |
| `ImageDataCache.FeedImageStoreSpy.constructor` | EssentialFeedTests/FeedCache/Helpers/FeedImageDataStoreSpy.swift:16-18 | a fresh spy has an empty log and empty queues |
| `ImageDataCache.FeedImageStoreSpy.Insert` | EssentialFeedTests/FeedCache/Helpers/FeedImageDataStoreSpy.swift:20-23 | appends `insert(data, url)` unchanged and queues one insertion completion |
| `ImageDataCache.FeedImageStoreSpy.Retrieve` | EssentialFeedTests/FeedCache/Helpers/FeedImageDataStoreSpy.swift:25-28 | appends `retrieve(url)` and queues one retrieval completion |
| `ImageDataCache.FeedImageStoreSpy.CompleteRetrieval` | EssentialFeedTests/FeedCache/Helpers/FeedImageDataStoreSpy.swift:30-32 | hands `success(data)` to the index-th completion; only that task changes, and only while it is not cancelled |
| `ImageDataCache.FeedImageStoreSpy.CompleteRetrievalWithError` | EssentialFeedTests/FeedCache/Helpers/FeedImageDataStoreSpy.swift:34-36 | hands `failure(error)` to the index-th completion; only that task changes |
| `ImageDataCache.FeedImageStoreSpy.CompleteInsertion` | EssentialFeedTests/FeedCache/Helpers/FeedImageDataStoreSpy.swift:38-40 | hands `failure(error)` to the index-th insertion completion; a live loader passes it on |
| `ImageDataCache.ImageDataLoadTask.constructor` | EssentialFeedTests/FeedImageLoader/LoadFeedImageDataUseCaseTests.swift:69-73 | a new task holds its completion and has delivered nothing (in the library, `LocalFeedImageDataLoader.swift` lines 41-43) |
| `ImageDataCache.ImageDataLoadTask.Complete` | EssentialFeedTests/FeedImageLoader/LoadFeedImageDataUseCaseTests.swift:27-49 | delivers the result exactly when not cancelled (in the library, `LocalFeedImageDataLoader.swift` lines 45-47) |
| `ImageDataCache.ImageDataLoadTask.Cancel` | EssentialFeedTests/FeedImageLoader/LoadFeedImageDataUseCaseTests.swift:51-67 | drops the completion without delivering anything (in the library, `LocalFeedImageDataLoader.swift` lines 49-51) |
| `ImageDataCache.LocalFeedImageDataLoader.constructor` | EssentialFeedTests/FeedImageLoader/LoadFeedImageDataUseCaseTests.swift:93-100 | keeps the store and sends it nothing (in the library, `LocalFeedImageDataLoader.swift` lines 13-15) |
| `ImageDataCache.LocalFeedImageDataLoader.Release` | EssentialFeedTests/FeedImageLoader/CacheFeedImageDataUseCaseTests.swift:63 | the owner drops the loader, as the leak tracking demands it can: the loader is no longer alive and nothing is delivered by the release itself (the `[weak self]` of `LocalFeedImageDataLoader.swift` lines 23-28) |
| `ImageDataCache.LocalFeedImageDataLoader.Save` | EssentialFeedTests/FeedImageLoader/CacheFeedImageDataUseCaseTests.swift:18-25 | forwards exactly one insert with the bytes and URL unchanged (in the library, `LocalFeedImageDataLoader.swift` lines 23-24) |
| `ImageDataCache.LocalFeedImageDataLoader.SaveInsertionCompleted` | EssentialFeedTests/FeedImageLoader/CacheFeedImageDataUseCaseTests.swift:27-34 | a live loader passes the store's result on unchanged; a released one drops it (in the library, `LocalFeedImageDataLoader.swift` lines 24-27) |
| `ImageDataCache.LocalFeedImageDataLoader.LoadImageData` | EssentialFeedTests/FeedImageLoader/LoadFeedImageDataUseCaseTests.swift:18-25 | returns a new, uncancelled task and sends exactly one retrieve for the URL, whose completion holds only that task (in the library, `LocalFeedImageDataLoader.swift` lines 54-65) |
| `ImageDataCacheScenarios.InitDoesNotMessageStore` | EssentialFeedTests/FeedImageLoader/LoadFeedImageDataUseCaseTests.swift:13-16 | creating the loader sends the store nothing |
| `ImageDataCacheScenarios.LoadImageDataRetrievesDataForUrl` | EssentialFeedTests/FeedImageLoader/LoadFeedImageDataUseCaseTests.swift:18-25 | a load sends exactly `[retrieve(dataFor: url)]` |
| `ImageDataCacheScenarios.LoadImageDataCompletesWith` | EssentialFeedTests/FeedImageLoader/LoadFeedImageDataUseCaseTests.swift:27-49 | one delivery: a store error as the same error, nil as `notFound`, bytes unchanged |
| `ImageDataCacheScenarios.LoadImageDataDeliversNothingAfterCancel` | EssentialFeedTests/FeedImageLoader/LoadFeedImageDataUseCaseTests.swift:51-67 | after cancel, error, data and nil completions deliver nothing |
| `ImageDataCacheScenarios.CancellingOneTaskLeavesOthers` | EssentialFeedTests/FeedImageLoader/LoadFeedImageDataUseCaseTests.swift:51-67 | cancelling one load's task leaves another load's delivery intact (in the library, `LocalFeedImageDataLoader.swift` lines 54-65) |
| `ImageDataCacheScenarios.SaveRequestsInsertionForUrl` | EssentialFeedTests/FeedImageLoader/CacheFeedImageDataUseCaseTests.swift:18-25 | save sends exactly `[insert(data, url)]` with both unchanged, and no retrieve |
| `ImageDataCacheScenarios.SaveDeliversErrorOnInsertionError` | EssentialFeedTests/FeedImageLoader/CacheFeedImageDataUseCaseTests.swift:27-34 | an insertion error is the save result, unchanged |
| `ImageDataCacheScenarios.SaveDeliversNothingAfterRelease` | EssentialFeedTests/FeedImageLoader/CacheFeedImageDataUseCaseTests.swift:63 | a loader released before the insertion completes delivers nothing (in the library, `LocalFeedImageDataLoader.swift` lines 23-28) |
| `RemoteImageDataLoading.AsWrittenImageDataOutcome` | EssentialFeedTests/FeedImageLoader/RemoteFeedImageLoaderTests.swift:22-34 | as written, the completion is never called exactly for status 200 with a non-empty body; a client error is passed on and any other response is `invalidData` |
| `RemoteImageDataLoading.AsWrittenNeverCompletesOnValidData` | EssentialFeedTests/FeedImageLoader/RemoteFeedImageLoaderTests.swift:25-29 | a 200 response with one byte of body calls no completion |
| `RemoteImageDataLoading.ImageDataOutcome` | EssentialFeedTests/FeedImageLoader/RemoteFeedImageLoaderTests.swift:64-91 | success exactly for status 200 with a non-empty body, delivering that body; a client error is passed on unchanged (in the library, `RemoteFeedImageDataLoader.swift` lines 47-52) |
| `RemoteImageDataLoading.ImageDataOutcomeCompletesAsWritten` | EssentialFeedTests/FeedImageLoader/RemoteFeedImageLoaderTests.swift:22-34 | the intended mapping agrees wherever the as-written one completes, and delivers the body where it does not |
| `RemoteImageDataLoading.EmptyBodyIsInvalidData` | EssentialFeedTests/FeedImageLoader/RemoteFeedImageLoaderTests.swift:84-91 | an empty body is `invalidData`, whatever the status |
| `RemoteImageDataLoading.HttpClientSpy.constructor` | EssentialFeedTests/FeedImageLoader/RemoteFeedImageLoaderTests.swift:127-129 | a fresh client has requested nothing |
| `RemoteImageDataLoading.HttpClientSpy.Get` | EssentialFeedTests/FeedImageLoader/RemoteFeedImageLoaderTests.swift:131-134 | records the URL and the request, in call order, keeping both logs in step |
| `RemoteImageDataLoading.HttpClientSpy.CompleteWithError` | EssentialFeedTests/FeedImageLoader/RemoteFeedImageLoaderTests.swift:136-138 | runs the index-th closure with the client error: the test file's closure calls the caller's completion with the as-written result; the intended loader's closure completes only its task, and only while the loader is held and the task not cancelled |
| `RemoteImageDataLoading.HttpClientSpy.CompleteWithStatusCode` | EssentialFeedTests/FeedImageLoader/RemoteFeedImageLoaderTests.swift:140-147 | runs the index-th closure with a response for that request's own URL, status and body, with the same two cases as `CompleteWithError` |
| `RemoteImageDataLoading.AsWrittenRequestCompleted` | EssentialFeedTests/FeedImageLoader/RemoteFeedImageLoaderTests.swift:23-33 | the test file's closure calls the caller's completion once with the `switch`'s result, or not at all after a valid response, with no loader involved |
| `RemoteImageDataLoading.AsWrittenRemoteFeedImageDataLoader.constructor` | EssentialFeedTests/FeedImageLoader/RemoteFeedImageLoaderTests.swift:18-20 | keeps the client and requests nothing |
| `RemoteImageDataLoading.AsWrittenRemoteFeedImageDataLoader.LoadImageData` | EssentialFeedTests/FeedImageLoader/RemoteFeedImageLoaderTests.swift:22-34 | one GET for exactly that URL, whose recorded closure holds only the caller's completion; no task is returned |
| `RemoteImageDataLoading.RemoteFeedImageDataLoader.constructor` | EssentialFeedTests/FeedImageLoader/RemoteFeedImageLoaderTests.swift:18-20 | the intended loader keeps the client and requests nothing (in the library, `RemoteFeedImageDataLoader.swift` lines 17-19) |
| `RemoteImageDataLoading.RemoteFeedImageDataLoader.Release` | EssentialFeedTests/FeedImageLoader/RemoteFeedImageLoaderTests.swift:122 | the owner drops the intended loader, as the leak tracking demands it can: the loader is no longer alive (the `[weak self]` of `RemoteFeedImageDataLoader.swift` lines 44-45) |
| `RemoteImageDataLoading.RemoteFeedImageDataLoader.LoadImageData` | EssentialFeedTests/FeedImageLoader/RemoteFeedImageLoaderTests.swift:45-62 | the intended loader: one GET for exactly that URL, and a new uncancelled task (in the library, `RemoteFeedImageDataLoader.swift` lines 42-55) |
| `RemoteImageDataLoading.RemoteFeedImageDataLoader.RequestCompleted` | EssentialFeedTests/FeedImageLoader/RemoteFeedImageLoaderTests.swift:64-91 | the intended loader, while held, completes the task with the mapped result; a released loader or a cancelled task delivers nothing (in the library, `RemoteFeedImageDataLoader.swift` lines 44-53) |
| `RemoteImageDataLoaderScenarios.InitDoesNotPerformAnyUrlRequests` | EssentialFeedTests/FeedImageLoader/RemoteFeedImageLoaderTests.swift:40-43 | creating the loader requests nothing; run on the intended loader `RemoteFeedImageDataLoader`, which here gives what the test file's loader gives (`ImageDataOutcomeCompletesAsWritten`) |
| `RemoteImageDataLoaderScenarios.LoadImageDataRequestsDataFromUrlTwice` | EssentialFeedTests/FeedImageLoader/RemoteFeedImageLoaderTests.swift:45-62 | one load requests `[url]`, two request `[url, url]`; run on the intended loader `RemoteFeedImageDataLoader`, which here gives what the test file's loader gives (`ImageDataOutcomeCompletesAsWritten`) |
| `RemoteImageDataLoaderScenarios.LoadImageDataDeliversErrorOnClientError` | EssentialFeedTests/FeedImageLoader/RemoteFeedImageLoaderTests.swift:64-70 | a client error is delivered unchanged, once; run on the intended loader `RemoteFeedImageDataLoader`, which here gives what the test file's loader gives (`ImageDataOutcomeCompletesAsWritten`) |
| `RemoteImageDataLoaderScenarios.LoadImageDataDeliversInvalidDataOnNon200Response` | EssentialFeedTests/FeedImageLoader/RemoteFeedImageLoaderTests.swift:72-82 | any status other than 200 gives `invalidData`; run on the intended loader `RemoteFeedImageDataLoader`, which here gives what the test file's loader gives (`ImageDataOutcomeCompletesAsWritten`) |
| `RemoteImageDataLoaderScenarios.LoadImageDataDeliversInvalidDataOnEmptyData` | EssentialFeedTests/FeedImageLoader/RemoteFeedImageLoaderTests.swift:84-91 | status 200 with an empty body gives `invalidData`; run on the intended loader `RemoteFeedImageDataLoader`, which here gives what the test file's loader gives (`ImageDataOutcomeCompletesAsWritten`) |
| `RemoteImageDataLoaderScenarios.LoadImageDataDeliversDataOnValidResponse` | EssentialFeedTests/FeedImageLoader/RemoteFeedImageLoaderTests.swift:23-29 | status 200 with a body delivers exactly those bytes (in the library, `RemoteFeedImageDataLoader.swift` lines 50-51) |
| `RemoteImageDataLoaderScenarios.AsWrittenLoaderCompletesWithoutTheLoader` | EssentialFeedTests/FeedImageLoader/RemoteFeedImageLoaderTests.swift:22-34 | the test file's loader registers a closure that holds no loader, so dropping the loader cannot mute it: a client error still arrives once, and a valid response never does |
| `RemoteFeedLoading.DecodeOptionalString` | EssentialFeedTests/FeedAPI/RemoteFeedLoaderTests.swift:127-139 | an absent or null optional string is nil, a string is itself, anything else fails decoding (in the library, `RemoteFeedLoader.swift` lines 61-62) |
| `RemoteFeedLoading.DecodeItem` | EssentialFeedTests/FeedAPI/RemoteFeedLoaderTests.swift:127-141 | an item decodes exactly from an object with UUID text under `id`, a string under `image` (which becomes `url`), and an absent, null or string `description` and `location`, each carried over (in the library, `RemoteFeedLoader.swift` lines 59-71) |
| `RemoteFeedLoading.DecodeItems` | EssentialFeedTests/FeedAPI/RemoteFeedLoaderTests.swift:89-103 | the array decodes exactly when every element does, into the images in the same order (in the library, `RemoteFeedLoader.swift` lines 47-48) |
| `RemoteFeedLoading.DecodeRoot` | EssentialFeedTests/FeedAPI/RemoteFeedLoaderTests.swift:69-87 | a body decodes exactly when it is JSON text holding an object with an `items` array whose elements all decode; the feed is those items, in order (in the library, `RemoteFeedLoader.swift` lines 55-57) |
| `RemoteFeedLoading.MapFeedResponse` | EssentialFeedTests/FeedAPI/RemoteFeedLoaderTests.swift:57-103 | success exactly for status 200 with a decodable body, delivering the decoded images; every failure is `invalidData` (in the library, `RemoteFeedLoader.swift` lines 42-52) |
| `RemoteFeedLoading.FeedLoadOutcome` | EssentialFeedTests/FeedAPI/RemoteFeedLoaderTests.swift:47-103 | `connectivity` exactly on a client error; the only errors are `connectivity` and `invalidData` (in the library, `RemoteFeedLoader.swift` lines 28-36) |
| `RemoteFeedLoading.DropNilValues` | EssentialFeedTests/FeedAPI/RemoteFeedLoaderTests.swift:135-139 | the reduce keeps exactly the keys whose value is not nil |
| `RemoteFeedLoading.DropNilValuesLast` | EssentialFeedTests/FeedAPI/RemoteFeedLoaderTests.swift:135-139 | the reduce keeps the last non-nil value written under a key |
| `RemoteFeedLoading.ItemJson` | EssentialFeedTests/FeedAPI/RemoteFeedLoaderTests.swift:127-141 | `createItem`'s `jsonValues` is an object with `id` and `image` as strings, and a `description`/`location` key exactly when the image has that value, holding it |
| `RemoteFeedLoading.ItemsJson` | EssentialFeedTests/FeedAPI/RemoteFeedLoaderTests.swift:100 | the `items` array holds each image's `jsonValues`, one per image, in order |
| `RemoteFeedLoading.RootJson` | EssentialFeedTests/FeedAPI/RemoteFeedLoaderTests.swift:120-125 | `createItemsJSON` writes one key, `items`, holding the array unchanged, and the root decodes exactly as its elements do |
| `RemoteFeedLoading.DecodeItemOfItemJson` | EssentialFeedTests/FeedAPI/RemoteFeedLoaderTests.swift:127-141 | the JSON built for an image decodes back to that image |
| `RemoteFeedLoading.DecodeRootOfRootJson` | EssentialFeedTests/FeedAPI/RemoteFeedLoaderTests.swift:89-103 | `createItemsJSON` of the built items decodes back to the same images, in order |
| `RemoteFeedLoading.NullIsAbsent` | EssentialFeedTests/FeedAPI/RemoteFeedLoaderTests.swift:130-139 | a `null` description or location reads as an absent one (in the library, `RemoteFeedLoader.swift` lines 61-62) |
| `RemoteFeedLoading.HttpClientSpy.constructor` | EssentialFeedTests/FeedAPI/RemoteFeedLoaderTests.swift:185 | a fresh client has no requests |
| `RemoteFeedLoading.HttpClientSpy.RequestedURLs` | EssentialFeedTests/FeedAPI/RemoteFeedLoaderTests.swift:182-184 | the requested URLs are the requests' URLs, in order |
| `HttpClient.Urls` | EssentialFeedTests/FeedAPI/RemoteFeedLoaderTests.swift:182-184 | a spy's requested URLs are the URL of every recorded request, in call order; both spies use it |
| `RemoteFeedLoading.HttpClientSpy.Get` | EssentialFeedTests/FeedAPI/RemoteFeedLoaderTests.swift:187-190 | records exactly one request |
| `RemoteFeedLoading.HttpClientSpy.CompleteWithError` | EssentialFeedTests/FeedAPI/RemoteFeedLoaderTests.swift:192-194 | the index-th request fails; a live loader delivers `connectivity` |
| `RemoteFeedLoading.HttpClientSpy.CompleteWithStatusCode` | EssentialFeedTests/FeedAPI/RemoteFeedLoaderTests.swift:196-200 | the index-th request gets a response for its own URL; a live loader delivers the mapped result |
| `RemoteFeedLoading.RemoteFeedLoader.constructor` | EssentialFeedTests/FeedAPI/RemoteFeedLoaderTests.swift:143-155 | keeps URL and client and requests nothing (in the library, `RemoteFeedLoader.swift` lines 22-25) |
| `RemoteFeedLoading.RemoteFeedLoader.Release` | EssentialFeedTests/FeedAPI/RemoteFeedLoaderTests.swift:114 | the owner sets its reference to nil: the loader is no longer alive and nothing is delivered by the release itself (the `[weak self]` of `RemoteFeedLoader.swift` lines 28-29) |
| `RemoteFeedLoading.RemoteFeedLoader.Load` | EssentialFeedTests/FeedAPI/RemoteFeedLoaderTests.swift:19-26 | one GET for the configured URL (in the library, `RemoteFeedLoader.swift` lines 27-28) |
| `RemoteFeedLoading.RemoteFeedLoader.RequestCompleted` | EssentialFeedTests/FeedAPI/RemoteFeedLoaderTests.swift:47-118 | a live loader delivers the classified result once; a released one delivers nothing (in the library, `RemoteFeedLoader.swift` lines 28-36) |
| `RemoteFeedLoaderScenarios.InitDoesNotRequestDataFromUrl` | EssentialFeedTests/FeedAPI/RemoteFeedLoaderTests.swift:13-17 | creating the loader requests nothing |
| `RemoteFeedLoaderScenarios.LoadRequestsDataFromUrlTwice` | EssentialFeedTests/FeedAPI/RemoteFeedLoaderTests.swift:19-45 | one load requests `[url]`, two request `[url, url]` |
| `RemoteFeedLoaderScenarios.LoadDeliversConnectivityOnClientError` | EssentialFeedTests/FeedAPI/RemoteFeedLoaderTests.swift:47-55 | a client error gives `connectivity` |
| `RemoteFeedLoaderScenarios.LoadDeliversInvalidDataOnNon200Response` | EssentialFeedTests/FeedAPI/RemoteFeedLoaderTests.swift:57-67 | any status other than 200 gives `invalidData`, even with a valid items document |
| `RemoteFeedLoaderScenarios.LoadDeliversInvalidDataOn200WithInvalidJson` | EssentialFeedTests/FeedAPI/RemoteFeedLoaderTests.swift:69-77 | status 200 with bytes that are not JSON gives `invalidData` |
| `RemoteFeedLoaderScenarios.LoadDeliversNoItemsOn200WithEmptyJsonList` | EssentialFeedTests/FeedAPI/RemoteFeedLoaderTests.swift:79-87 | status 200 with `{"items": []}` gives `success([])` |
| `RemoteFeedLoaderScenarios.LoadDeliversItemsOn200WithJsonItems` | EssentialFeedTests/FeedAPI/RemoteFeedLoaderTests.swift:89-103 | status 200 with the built items gives the same images, in order |
| `RemoteFeedLoaderScenarios.LoadDoesNotDeliverResultAfterRelease` | EssentialFeedTests/FeedAPI/RemoteFeedLoaderTests.swift:105-118 | a loader released before the response delivers nothing |
| `FeedImagePresentation.DidStartLoadingImageData` | EssentialFeed/FeedPresentation/FeedImagePresenter.swift:20-26 | loading, no image, no retry |
| `FeedImagePresentation.DidFinishLoadingImageDataWithError` | EssentialFeed/FeedPresentation/FeedImagePresenter.swift:28-34 | not loading, no image, retry |
| `FeedImagePresentation.DidFinishLoadingImageData` | EssentialFeed/FeedPresentation/FeedImagePresenter.swift:36-44 | not loading, the transformer's image, retry exactly when the transformer gives none |
| `FeedImagePresentation.PresentIsCoherent` | EssentialFeed/FeedPresentation/FeedImagePresenter.swift:20-44 | every event shows the model's description and location, is loading exactly after a start, and never shows an image or a retry while loading |
| `FeedImagePresentation.RetryExactlyWithoutImage` | EssentialFeed/FeedPresentation/FeedImagePresenter.swift:28-44 | a finished load offers retry exactly after an error or untransformable data |
| `FeedPresentation.Present` | EssentialFeed/FeedPresentation/FeedPresenter.swift:43-54 | each call ends with one loading display, true only for a start; a successful finish makes exactly two displays, the unchanged feed and then the loading display; a start or a failure makes only the loading display |
| `FeedPresentation.LoadingShownAppend` | EssentialFeed/FeedPresentation/FeedPresenter.swift:43-54 | the loading view shows the last loading display |
| `FeedPresentation.FeedsShownAppend` | EssentialFeed/FeedPresentation/FeedPresenter.swift:47-50 | the feeds shown by two runs of displays are those of the first, then of the second |
| `FeedPresentation.LoadingFollowsLastEvent` | EssentialFeed/FeedPresentation/FeedPresenter.swift:43-54 | after any calls, the loading indicator is on exactly when the last call was a start |
| `FeedPresentation.FeedViewShowsLoadedFeeds` | EssentialFeed/FeedPresentation/FeedPresenter.swift:47-54 | the feed view receives exactly the feeds of the successful loads, unchanged and in order |

## Left out

- `validateCache` completion: LocalFeedLoader.swift:38-50 gives `validateCache` no completion, and its delete closure ignores the result. The model follows the code.
- Expired caches in `validateCache`: the tests exercise only failure and empty. The code also deletes a found cache at least seven days old (LocalFeedLoader.swift:42-43), and the model includes that.
- Retrieve in the feed store spy: FeedStoreSpy.swift has no retrieve message or retrieval queue, but the load and validate tests use both. FeedStoreSpy.swift declares no retrieve, so the model adds a `retrieve` message and a retrieval queue that delivers empty, found or failure.
- Image store protocol: FeedImageStore.swift declares `insert(data:for:)` without a completion. LocalFeedImageDataLoader.swift and FeedImageDataStoreSpy.swift use an insert with a completion, and the model follows them.
- RemoteImageDataLoading.RemoteFeedImageDataLoader: its release and cancel behaviour follows the library loader, RemoteFeedImageDataLoader.swift lines 21-45, with a `[weak self]` guard and a cancellable task. The loader declared at RemoteFeedImageLoaderTests.swift:22-34 has neither. Released, that loader still delivers the client error or `invalidData`, and it returns no task. `RemoteImageDataLoading.AsWrittenRemoteFeedImageDataLoader` models it as written.
- HTTP client task: HTTPClient.swift declares `get` without a returned task, while the library RemoteFeedImageDataLoader.swift and the feed spy use one. The client task and `wrapped?.cancel()` are not modelled; the feed spy's task does nothing. Cancelling is modelled only as the task dropping its completion.
- Concrete stores (CoreData and Codable, with their file and database I/O): not modelled. The reference single-slot store stands for every backend in the conformance assertions.
- Time: a `Date` is a whole number of seconds, and the injected clock is a constant read. Gregorian calendar arithmetic is not modelled: seven days is always 604800 seconds, so daylight-saving days are not covered, and the calendar's `nil` branch of `validate` does not exist here.
- Threads, XCTest expectations and timeouts: completions are explicit steps. Serial side effects are a FIFO queue run by `Drain`.
- JSON bytes: byte-level JSON parsing is not modelled. A body is either the JSON value its bytes read as, or bytes that are not JSON.
- RemoteFeedLoading.DecodeItem: accepts any string under `image` as the URL. It does not model `URL(string:)` rejecting malformed text.
- Swift `Error`s compared by identity are `AnyError(code)`. Equality of codes stands for the tests' `NSError` equality.
- UI, localisation and leak tracking: not modelled. This covers the UIKit controllers and cells, the presenter's image decoding (`imageTransrormer`, a function parameter here), `FeedPresenter.title`, and memory-leak tracking (release is the explicit `alive` flag).
- FeedImagePresenterTests.swift: its placeholder presenter is not modelled.
- The older duplicate `XCTestCase+FeedStoreSpecs.swift` outside `Helpers` and `FeedStoreSpecs.swift` are not modelled. The helper file's assertions are all here.
- Spy invariant: the feed store spy requires that each queued closure belongs to a loader of that same store. This holds for every closure a loader creates, and it lets the completion methods state what they do to the store.
- Delivery identity: deliveries are recorded per loader (or per task for image loads), not per call of `save`/`load`. The scenarios issue one call per loader where it matters.

## Findings

| source | as written | input that shows it | evidently intended | confidence | as-written member | corrected member |
|---|---|---|---|---|---|---|
| EssentialFeedTests/FeedImageLoader/RemoteFeedImageLoaderTests.swift:25-29 | after the `guard` accepts a status-200 response with a non-empty body, the `success` case ends without calling `completion` | status 200 with a body of one byte, e.g. `[0x2A]`: the caller is never called back | deliver `.success(data)` for a valid response, as the library RemoteFeedImageDataLoader.swift:50-51 does | high (from reading the code; not executed) | `RemoteImageDataLoading.AsWrittenImageDataOutcome`, `RemoteImageDataLoading.AsWrittenNeverCompletesOnValidData`, `RemoteImageDataLoaderScenarios.AsWrittenLoaderCompletesWithoutTheLoader` | `RemoteImageDataLoading.ImageDataOutcome`, `RemoteImageDataLoading.ImageDataOutcomeCompletesAsWritten`, `RemoteImageDataLoaderScenarios.LoadImageDataDeliversDataOnValidResponse` |
