/**
 * The tests of RemoteFeedImageDataLoader, each as a client of the verified
 * loader and HTTP client spy, plus the valid-response case the intended
 * mapping adds.
 */
module RemoteImageDataLoaderScenarios {
  import opened Wrappers
  import opened FeedDomain
  import opened HttpClient
  import opened ImageDataCache
  import opened RemoteImageDataLoading

  /** Creating the loader requests nothing. */
  method InitDoesNotPerformAnyUrlRequests() returns (requested: seq<Url>)
    ensures requested == []
  {
    var client := new HttpClientSpy();
    var sut := new RemoteFeedImageDataLoader(client);
    requested := client.requestedURLs;
  }

  /** One load is one GET for its URL; two loads of the same URL are two GETs, in order. */
  method LoadImageDataRequestsDataFromUrlTwice(url: Url) returns (afterOne: seq<Url>, afterTwo: seq<Url>)
    ensures afterOne == [url]
    ensures afterTwo == [url, url]
  {
    var client := new HttpClientSpy();
    var sut := new RemoteFeedImageDataLoader(client);
    var task1 := sut.LoadImageData(url);
    afterOne := client.requestedURLs;
    var task2 := sut.LoadImageData(url);
    afterTwo := client.requestedURLs;
  }

  /** A client error reaches the caller unchanged, once. */
  method LoadImageDataDeliversErrorOnClientError(url: Url, error: Error) returns (received: seq<ImageDataResult>)
    ensures received == [Failure(error)]
  {
    var client := new HttpClientSpy();
    var sut := new RemoteFeedImageDataLoader(client);
    var task := sut.LoadImageData(url);
    client.CompleteWithError(error, 0);
    received := task.received;
  }

  /** Any status other than 200 is `invalidData`, whatever the body. */
  method LoadImageDataDeliversInvalidDataOnNon200Response(url: Url, statusCode: int, data: Data)
    returns (received: seq<ImageDataResult>)
    requires statusCode != 200
    ensures received == [Failure(InvalidData)]
  {
    var client := new HttpClientSpy();
    var sut := new RemoteFeedImageDataLoader(client);
    var task := sut.LoadImageData(url);
    client.CompleteWithStatusCode(statusCode, data, 0);
    received := task.received;
  }

  /** Status 200 with an empty body is `invalidData`. */
  method LoadImageDataDeliversInvalidDataOnEmptyData(url: Url) returns (received: seq<ImageDataResult>)
    ensures received == [Failure(InvalidData)]
  {
    var client := new HttpClientSpy();
    var sut := new RemoteFeedImageDataLoader(client);
    var task := sut.LoadImageData(url);
    client.CompleteWithStatusCode(200, [], 0);
    received := task.received;
  }

  /** Status 200 with a body delivers exactly those bytes. */
  method LoadImageDataDeliversDataOnValidResponse(url: Url, data: Data) returns (received: seq<ImageDataResult>)
    requires data != []
    ensures received == [Success(data)]
  {
    var client := new HttpClientSpy();
    var sut := new RemoteFeedImageDataLoader(client);
    var task := sut.LoadImageData(url);
    client.CompleteWithStatusCode(200, data, 0);
    received := task.received;
  }

  /**
   * The test file's loader registers a closure that holds no loader, so
   * dropping the loader cannot mute it: a client error still reaches the
   * caller, once. A valid response reaches it never.
   */
  method AsWrittenLoaderCompletesWithoutTheLoader(url: Url, error: Error, data: Data)
    returns (holdsLoader: bool, onError: seq<ImageDataResult>, onValidResponse: seq<ImageDataResult>)
    requires data != []
    ensures !holdsLoader
    ensures onError == [Failure(error)]
    ensures onValidResponse == []
  {
    var client := new HttpClientSpy();
    var sut := new AsWrittenRemoteFeedImageDataLoader(client);
    var first := new CompletionLog();
    sut.LoadImageData(url, first);
    holdsLoader := client.messages[0].completion.CompleteImageTask?;
    client.CompleteWithError(error, 0);
    onError := first.received;

    var second := new CompletionLog();
    sut.LoadImageData(url, second);
    client.CompleteWithStatusCode(200, data, 1);
    onValidResponse := second.received;
  }
}
