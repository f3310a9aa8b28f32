/**
 * RemoteFeedImageDataLoader: image bytes fetched with a GET through an
 * HTTP client, and the HTTPClientSPY its tests drive it with.
 *
 * The loader declared inside RemoteFeedImageLoaderTests.swift never calls
 * its completion for a 200 response with a body. It is modelled as written:
 * `AsWrittenImageDataOutcome` is its mapping, with the input that shows the
 * gap, and `AsWrittenRemoteFeedImageDataLoader` is the loader itself.
 * `RemoteFeedImageDataLoader` is the intended loader. It maps every response,
 * and it holds itself weakly and returns a cancellable task, as the library's
 * own RemoteFeedImageDataLoader.swift does.
 */
module RemoteImageDataLoading {
  import opened Wrappers
  import opened FeedDomain
  import opened HttpClient
  import opened ImageDataCache

  type ImageHttpResult = HttpClientResult<Data>

  /** The only response a loader accepts: status 200 with a non-empty body. */
  predicate IsValidImageResponse(statusCode: int, data: Data) {
    statusCode == 200 && data != []
  }

  // ---------------------------------------------------------------------------
  // The mapping as written in the test file, and as intended
  // ---------------------------------------------------------------------------

  /**
   * The test file's `switch`: `None` means the completion is never called.
   * A client error is passed on and an invalid response is `invalidData`,
   * but after a valid response the `guard` falls through and nothing is called.
   */
  function AsWrittenImageDataOutcome(r: ImageHttpResult): (out: Option<ImageDataResult>)
    ensures out.None? <==> r.Received? && IsValidImageResponse(r.response.statusCode, r.body)
    ensures r.ClientFailure? ==> out == Some(Failure(r.error))
    ensures r.Received? && !IsValidImageResponse(r.response.statusCode, r.body) ==> out == Some(Failure(InvalidData))
  {
    match r
    case Received(response, data) =>
      if !IsValidImageResponse(response.statusCode, data) then Some(Failure(InvalidData))
      else None
    case ClientFailure(error) => Some(Failure(error))
  }

  /** A 200 response with a one-byte body leaves the caller waiting forever. */
  lemma AsWrittenNeverCompletesOnValidData(url: Url)
    ensures AsWrittenImageDataOutcome(Received(HttpUrlResponse(url, 200), [0x2A])).None?
  {
  }

  /**
   * Every GET completes: a client error is passed on, a valid response is
   * delivered as its bytes, anything else is `invalidData`.
   */
  function ImageDataOutcome(r: ImageHttpResult): (out: ImageDataResult)
    ensures out.Success? <==> r.Received? && IsValidImageResponse(r.response.statusCode, r.body)
    ensures out.Success? ==> out.value == r.body && out.value != []
    ensures r.ClientFailure? ==> out == Failure(r.error)
  {
    match r
    case Received(response, data) =>
      if IsValidImageResponse(response.statusCode, data) then Success(data) else Failure(InvalidData)
    case ClientFailure(error) => Failure(error)
  }

  /**
   * The intended mapping keeps every answer the test file's version gives,
   * and gives one exactly where that version gives none: the bytes.
   */
  lemma ImageDataOutcomeCompletesAsWritten(r: ImageHttpResult)
    ensures AsWrittenImageDataOutcome(r).Some? ==> AsWrittenImageDataOutcome(r).value == ImageDataOutcome(r)
    ensures AsWrittenImageDataOutcome(r).None? ==> ImageDataOutcome(r) == Success(r.body)
  {
  }

  /** Whatever the status, an empty body is never delivered as image data. */
  lemma EmptyBodyIsInvalidData(response: HttpUrlResponse)
    ensures ImageDataOutcome(Received(response, [])) == Failure(InvalidData)
  {
  }

  // ---------------------------------------------------------------------------
  // The recording client and the loader
  // ---------------------------------------------------------------------------

  /** The caller's completion as the test file's loader receives it: every result it is called with, in order. */
  class CompletionLog {
    var received: seq<ImageDataResult>

    constructor ()
      ensures received == []
    {
      received := [];
    }
  }

  /**
   * The closure a load hands to `get(from:completion:)`. The loader of the
   * test file captures only the caller's completion; the intended loader
   * captures itself weakly and the task it returned.
   */
  datatype RequestCompletion =
    | CallCompletion(completion: CompletionLog)
    | CompleteImageTask(loader: RemoteFeedImageDataLoader, task: ImageDataLoadTask)

  /** What running a recorded closure may change: the caller's completion, or the task. */
  function Target(c: RequestCompletion): set<object> {
    match c
    case CallCompletion(completion) => {completion}
    case CompleteImageTask(_, task) => {task}
  }

  /** The calls the test file's closure makes for a client result: none, or one. */
  function AsWrittenCalls(r: ImageHttpResult): seq<ImageDataResult> {
    match AsWrittenImageDataOutcome(r)
    case Some(out) => [out]
    case None => []
  }

  /**
   * The body of the test file's closure: the `switch` calls the caller's
   * completion directly. No loader is involved, so nothing can mute it.
   */
  method AsWrittenRequestCompleted(completion: CompletionLog, result: ImageHttpResult)
    modifies completion
    ensures completion.received == old(completion.received) + AsWrittenCalls(result)
  {
    match AsWrittenImageDataOutcome(result)
    case Some(out) =>
      completion.received := completion.received + [out];
    case None =>
  }


  /** The test file's `HTTPClientSPY`: every requested URL, and every request with its completion, in call order. */
  class HttpClientSpy {
    var requestedURLs: seq<Url>
    var messages: seq<Request<RequestCompletion>>

    /** The two logs are appended together, so they always agree. */
    ghost predicate Valid()
      reads this
    {
      requestedURLs == Urls(messages)
    }

    constructor ()
      ensures Valid() && requestedURLs == [] && messages == []
    {
      requestedURLs := [];
      messages := [];
    }

    /** `get(from:completion:)`: record the URL and the completion; nothing is fetched. */
    method Get(url: Url, completion: RequestCompletion)
      requires Valid()
      modifies this
      ensures Valid()
      ensures requestedURLs == old(requestedURLs) + [url]
      ensures messages == old(messages) + [Request(url, completion)]
    {
      assert Urls(messages + [Request(url, completion)]) == Urls(messages) + [url];
      requestedURLs := requestedURLs + [url];
      messages := messages + [Request(url, completion)];
    }

    /** `complete(with:at:)`: fail the index-th request with a client error. */
    method CompleteWithError(error: Error, index: nat)
      requires index < |messages|
      modifies Target(messages[index].completion)
      ensures match messages[index].completion
        case CallCompletion(completion) =>
          completion.received == old(completion.received) + AsWrittenCalls(ClientFailure(error))
        case CompleteImageTask(loader, task) =>
          task.active == old(task.active) &&
          task.received == old(task.received) +
            (if loader.alive && task.active then [ImageDataOutcome(ClientFailure(error))] else [])
    {
      match messages[index].completion
      case CallCompletion(completion) =>
        AsWrittenRequestCompleted(completion, ClientFailure(error));
      case CompleteImageTask(loader, task) =>
        loader.RequestCompleted(task, ClientFailure(error));
    }

    /** `complete(withStatusCode:data:index:)`: answer the index-th request with a response for its own URL. */
    method CompleteWithStatusCode(statusCode: int, data: Data, index: nat)
      requires index < |messages|
      modifies Target(messages[index].completion)
      ensures var result := Received(HttpUrlResponse(messages[index].url, statusCode), data);
        match messages[index].completion
        case CallCompletion(completion) =>
          completion.received == old(completion.received) + AsWrittenCalls(result)
        case CompleteImageTask(loader, task) =>
          task.active == old(task.active) &&
          task.received == old(task.received) +
            (if loader.alive && task.active then [ImageDataOutcome(result)] else [])
    {
      var result := Received(HttpUrlResponse(messages[index].url, statusCode), data);
      match messages[index].completion
      case CallCompletion(completion) =>
        AsWrittenRequestCompleted(completion, result);
      case CompleteImageTask(loader, task) =>
        loader.RequestCompleted(task, result);
    }
  }

  /**
   * The `RemoteFeedImageDataLoader` the test file declares: `loadImageData`
   * hands the client a closure that captures only the caller's completion,
   * and returns nothing.
   */
  class AsWrittenRemoteFeedImageDataLoader {
    const client: HttpClientSpy

    /** `init(client:)`: keeps the client and requests nothing. */
    constructor (client: HttpClientSpy)
      ensures this.client == client
    {
      this.client := client;
    }

    /** `loadImageData(from:completion:)`: one GET for exactly that URL, whose closure holds only `completion`. */
    method LoadImageData(url: Url, completion: CompletionLog)
      requires client.Valid()
      modifies client
      ensures client.Valid()
      ensures client.requestedURLs == old(client.requestedURLs) + [url]
      ensures client.messages == old(client.messages) + [Request(url, CallCompletion(completion))]
    {
      client.Get(url, CallCompletion(completion));
    }
  }

  /**
   * The intended `RemoteFeedImageDataLoader`, as the library writes it. Each
   * load returns the task wrapping the caller's completion (the same
   * cancellable holder as the local loader's task); the client's closure
   * holds the loader weakly.
   */
  class RemoteFeedImageDataLoader {
    const client: HttpClientSpy
    /** False once the owner has released the loader; the client's closure then returns early. */
    var alive: bool

    /** `init(client:)`: keeps the client and requests nothing. */
    constructor (client: HttpClientSpy)
      ensures this.client == client && alive
    {
      this.client := client;
      alive := true;
    }

    /** The owner drops its last reference to the loader; the `[weak self]` of every pending closure now finds nil. */
    method Release()
      modifies this
      ensures !alive
    {
      alive := false;
    }

    /** `loadImageData(from:completion:)`: one GET for exactly that URL. */
    method LoadImageData(url: Url) returns (task: ImageDataLoadTask)
      requires client.Valid()
      modifies client
      ensures fresh(task) && task.active && task.received == []
      ensures client.Valid()
      ensures client.requestedURLs == old(client.requestedURLs) + [url]
      ensures client.messages == old(client.messages) + [Request(url, CompleteImageTask(this, task))]
    {
      task := new ImageDataLoadTask();
      client.Get(url, CompleteImageTask(this, task));
    }

    /** The body of the client's closure: a live loader completes the task with the mapped result. */
    method RequestCompleted(task: ImageDataLoadTask, result: ImageHttpResult)
      modifies task
      ensures task.active == old(task.active)
      ensures task.received == old(task.received) +
                (if alive && task.active then [ImageDataOutcome(result)] else [])
    {
      if alive {
        task.Complete(ImageDataOutcome(result));
      }
    }
  }
}
