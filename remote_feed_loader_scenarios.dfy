/**
 * The tests of RemoteFeedLoader, each as a client of the verified loader
 * and HTTP client spy.
 */
module RemoteFeedLoaderScenarios {
  import opened Wrappers
  import opened FeedDomain
  import opened HttpClient
  import opened RemoteFeedLoading

  /** Creating the loader requests nothing. */
  method InitDoesNotRequestDataFromUrl(url: Url) returns (requested: seq<Url>)
    ensures requested == []
  {
    var client := new HttpClientSpy();
    var sut := new RemoteFeedLoader(url, client);
    requested := client.RequestedURLs();
  }

  /** Each load requests the configured URL once: one load gives `[url]`, two give `[url, url]`. */
  method LoadRequestsDataFromUrlTwice(url: Url) returns (afterOne: seq<Url>, afterTwo: seq<Url>)
    ensures afterOne == [url]
    ensures afterTwo == [url, url]
  {
    var client := new HttpClientSpy();
    var sut := new RemoteFeedLoader(url, client);
    sut.Load();
    afterOne := client.RequestedURLs();
    sut.Load();
    afterTwo := client.RequestedURLs();
  }

  /** Any client error is delivered as `connectivity`. */
  method LoadDeliversConnectivityOnClientError(url: Url, clientError: Error) returns (delivered: seq<FeedLoaderResult>)
    ensures delivered == [Failure(Connectivity)]
  {
    var client := new HttpClientSpy();
    var sut := new RemoteFeedLoader(url, client);
    sut.Load();
    client.CompleteWithError(clientError, 0);
    delivered := sut.deliveries;
  }

  /** A status other than 200 is `invalidData`, even with a valid items document. */
  method LoadDeliversInvalidDataOnNon200Response(url: Url, statusCode: int) returns (delivered: seq<FeedLoaderResult>)
    requires statusCode != 200
    ensures delivered == [Failure(InvalidData)]
  {
    var client := new HttpClientSpy();
    var sut := new RemoteFeedLoader(url, client);
    sut.Load();
    client.CompleteWithStatusCode(statusCode, JsonText(RootJson([])), 0);
    delivered := sut.deliveries;
  }

  /** Status 200 with bytes that are not JSON is `invalidData`. */
  method LoadDeliversInvalidDataOn200WithInvalidJson(url: Url, invalidData: Data) returns (delivered: seq<FeedLoaderResult>)
    ensures delivered == [Failure(InvalidData)]
  {
    var client := new HttpClientSpy();
    var sut := new RemoteFeedLoader(url, client);
    sut.Load();
    client.CompleteWithStatusCode(200, NotJson(invalidData), 0);
    delivered := sut.deliveries;
  }

  /** Status 200 with `{"items": []}` is an empty feed. */
  method LoadDeliversNoItemsOn200WithEmptyJsonList(url: Url) returns (delivered: seq<FeedLoaderResult>)
    ensures delivered == [Success([])]
  {
    var client := new HttpClientSpy();
    var sut := new RemoteFeedLoader(url, client);
    sut.Load();
    client.CompleteWithStatusCode(200, JsonText(RootJson([])), 0);
    delivered := sut.deliveries;
  }

  /** Status 200 with the items the tests build delivers exactly those images, in order. */
  method LoadDeliversItemsOn200WithJsonItems(url: Url, feed: seq<FeedImage>) returns (delivered: seq<FeedLoaderResult>)
    ensures delivered == [Success(feed)]
  {
    var client := new HttpClientSpy();
    var sut := new RemoteFeedLoader(url, client);
    sut.Load();
    client.CompleteWithStatusCode(200, JsonText(RootJson(ItemsJson(feed))), 0);
    delivered := sut.deliveries;
    DecodeRootOfRootJson(feed);
  }

  /** A loader released before the response arrives delivers nothing. */
  method LoadDoesNotDeliverResultAfterRelease(url: Url) returns (delivered: seq<FeedLoaderResult>)
    ensures delivered == []
  {
    var client := new HttpClientSpy();
    var sut := new RemoteFeedLoader(url, client);
    sut.Load();
    sut.Release();
    client.CompleteWithStatusCode(200, NotJson([]), 0);
    delivered := sut.deliveries;
  }
}
