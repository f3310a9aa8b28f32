/** What an `HTTPClient` hands back for a GET: a response with its body, or an error. */
module HttpClient {
  import opened FeedDomain

  /** The parts of an `HTTPURLResponse` the loaders look at. */
  datatype HttpUrlResponse = HttpUrlResponse(url: Url, statusCode: int)

  /**
   * `HTTPClientResult`: `.success(response, body)` or `.failure(error)`.
   * The body is raw bytes for image data, and the JSON reading of the bytes
   * for the feed.
   */
  datatype HttpClientResult<Body> =
    | Received(response: HttpUrlResponse, body: Body)
    | ClientFailure(error: Error)

  /** One recorded `get(from:completion:)` of a client spy: the URL and the completion to call. */
  datatype Request<Completion> = Request(url: Url, completion: Completion)

  /** A spy's `requestedURLs`: the URL of every recorded request, in call order. */
  function Urls<Completion>(messages: seq<Request<Completion>>): (urls: seq<Url>)
    ensures |urls| == |messages| && forall i :: 0 <= i < |messages| ==> urls[i] == messages[i].url
  {
    if messages == [] then [] else [messages[0].url] + Urls(messages[1..])
  }
}
