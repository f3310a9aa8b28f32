/**
 * RemoteFeedLoader: the feed fetched with a GET from a fixed URL and decoded
 * from JSON, the HTTPClientSpy its tests drive it with, and the JSON shape
 * the tests build (`createItem`, `createItemsJSON`).
 *
 * Bytes are not parsed here: a body is either the JSON value its bytes
 * read as, or bytes that are not JSON. Decoding the JSON value into
 * `Root`/`Item` is modelled in full.
 */
module RemoteFeedLoading {
  import opened Wrappers
  import opened FeedDomain
  import opened HttpClient

  /** A JSON value. Objects are unordered and hold each key once. */
  datatype Json =
    | JNull
    | JBool(b: bool)
    | JNumber(n: int)
    | JString(s: string)
    | JArray(elements: seq<Json>)
    | JObject(fields: map<string, Json>)

  /** A response body: the JSON value its bytes read as, or bytes that are not JSON at all. */
  datatype Body = JsonText(value: Json) | NotJson(bytes: Data)

  // ---------------------------------------------------------------------------
  // Decoding `Root` and `Item`
  // ---------------------------------------------------------------------------

  /**
   * An optional `String` property: absent or null decodes as nil, a string
   * as itself, and anything else fails the whole decoding (`None`).
   */
  function DecodeOptionalString(fields: map<string, Json>, key: string): (r: Option<Option<string>>)
    ensures r == Some(None) <==> key !in fields || fields[key] == JNull
    ensures r.Some? && r.value.Some? <==> key in fields && fields[key].JString?
    ensures r.Some? && r.value.Some? ==> fields[key] == JString(r.value.value)
  {
    if key !in fields then Some(None)
    else
      match fields[key]
      case JNull => Some(None)
      case JString(s) => Some(Some(s))
      case _ => None
  }

  /**
   * `Item`, mapped to a `FeedImage`: `id` must be UUID text, `image` a
   * string (the image URL), `description` and `location` optional strings.
   * Other keys are ignored.
   */
  function DecodeItem(j: Json): (r: Option<FeedImage>)
    ensures r.Some? ==>
              && j.JObject?
              && "id" in j.fields && j.fields["id"].JString? && ParseUuid(j.fields["id"].s) == Some(r.value.id)
              && "image" in j.fields && j.fields["image"] == JString(r.value.url)
              && DecodeOptionalString(j.fields, "description") == Some(r.value.description)
              && DecodeOptionalString(j.fields, "location") == Some(r.value.location)
    ensures && j.JObject?
            && "id" in j.fields && j.fields["id"].JString? && IsUuidText(j.fields["id"].s)
            && "image" in j.fields && j.fields["image"].JString?
            && DecodeOptionalString(j.fields, "description").Some?
            && DecodeOptionalString(j.fields, "location").Some?
            ==> r.Some?
  {
    match j
    case JObject(fields) =>
      if "id" !in fields || !fields["id"].JString? || "image" !in fields || !fields["image"].JString? then None
      else
        var id := ParseUuid(fields["id"].s);
        var description := DecodeOptionalString(fields, "description");
        var location := DecodeOptionalString(fields, "location");
        if id.None? || description.None? || location.None? then None
        else Some(FeedImage(id.value, description.value, location.value, fields["image"].s))
    case _ => None
  }

  /** `[Item]`: every element must decode; the images keep the array's order. */
  function DecodeItems(elements: seq<Json>): (r: Option<seq<FeedImage>>)
    ensures r.Some? <==> forall i :: 0 <= i < |elements| ==> DecodeItem(elements[i]).Some?
    ensures r.Some? ==> |r.value| == |elements|
    ensures r.Some? ==> forall i :: 0 <= i < |elements| ==> r.value[i] == DecodeItem(elements[i]).value
  {
    if elements == [] then Some([])
    else
      var first := DecodeItem(elements[0]);
      var rest := DecodeItems(elements[1..]);
      if first.None? || rest.None? then None
      else Some([first.value] + rest.value)
  }

  /** `Root`: an object whose `items` key holds an array of items. */
  function DecodeRoot(body: Body): (r: Option<seq<FeedImage>>)
    ensures r.Some? ==>
              body.JsonText? && body.value.JObject? && "items" in body.value.fields &&
              body.value.fields["items"].JArray? && DecodeItems(body.value.fields["items"].elements) == r
    ensures (body.JsonText? && body.value.JObject? && "items" in body.value.fields &&
             body.value.fields["items"].JArray?) ==> r == DecodeItems(body.value.fields["items"].elements)
  {
    match body
    case JsonText(JObject(fields)) =>
      if "items" in fields && fields["items"].JArray? then DecodeItems(fields["items"].elements) else None
    case _ => None
  }

  // ---------------------------------------------------------------------------
  // FeedItemsMapper and load's classification
  // ---------------------------------------------------------------------------

  /** `FeedItemsMapper.map`: only a 200 response whose body decodes is a feed; anything else is `invalidData`. */
  function MapFeedResponse(response: HttpUrlResponse, body: Body): (r: FeedLoaderResult)
    ensures r.Success? <==> response.statusCode == 200 && DecodeRoot(body).Some?
    ensures r.Success? ==> r.value == DecodeRoot(body).value
    ensures r.Failure? ==> r.error == InvalidData
  {
    if response.statusCode != 200 then Failure(InvalidData)
    else
      match DecodeRoot(body)
      case Some(feed) => Success(feed)
      case None => Failure(InvalidData)
  }

  /** What `load` delivers for what the client hands back: any client error becomes `connectivity`. */
  function FeedLoadOutcome(r: HttpClientResult<Body>): (out: FeedLoaderResult)
    ensures out == Failure(Connectivity) <==> r.ClientFailure?
    ensures out.Failure? ==> out.error == Connectivity || out.error == InvalidData
    ensures r.Received? ==> out == MapFeedResponse(r.response, r.body)
  {
    match r
    case Received(response, body) => MapFeedResponse(response, body)
    case ClientFailure(_) => Failure(Connectivity)
  }

  // ---------------------------------------------------------------------------
  // The JSON the tests build
  // ---------------------------------------------------------------------------

  /**
   * The `reduce(into:)` of `createItem`: the entries in order, each non-nil
   * value written under its key, each nil value skipped.
   */
  function DropNilValues(entries: seq<(string, Option<Json>)>): (m: map<string, Json>)
    ensures forall k :: k in m ==> exists i :: 0 <= i < |entries| && entries[i].0 == k && entries[i].1.Some?
    ensures forall i :: 0 <= i < |entries| && entries[i].1.Some? ==> entries[i].0 in m
  {
    if entries == [] then map[]
    else
      var m := DropNilValues(entries[..|entries| - 1]);
      var (key, value) := entries[|entries| - 1];
      if value.Some? then m[key := value.value] else m
  }

  /** The last write under a key is what the reduce keeps. */
  lemma DropNilValuesLast(entries: seq<(string, Option<Json>)>, i: nat)
    requires i < |entries| && entries[i].1.Some?
    requires forall j :: i < j < |entries| ==> entries[j].0 != entries[i].0
    ensures DropNilValues(entries)[entries[i].0] == entries[i].1.value
  {
    if i < |entries| - 1 {
      DropNilValuesLast(entries[..|entries| - 1], i);
    }
  }

  function OptionalString(s: Option<string>): Option<Json> {
    if s.Some? then Some(JString(s.value)) else None
  }

  /**
   * `createItem(...).jsonValues`: the dictionary literal of `createItem`,
   * reduced with its nil values left out. The object has `id` and `image` as
   * strings, and a `description` or `location` key exactly when the image has
   * that value.
   */
  function ItemJson(image: FeedImage): (j: Json)
    ensures j.JObject?
    ensures && "id" in j.fields && j.fields["id"] == JString(image.id)
            && "image" in j.fields && j.fields["image"] == JString(image.url)
    ensures "description" in j.fields <==> image.description.Some?
    ensures image.description.Some? ==> j.fields["description"] == JString(image.description.value)
    ensures "location" in j.fields <==> image.location.Some?
    ensures image.location.Some? ==> j.fields["location"] == JString(image.location.value)
  {
    var entries := [ ("id", Some(JString(image.id))),
                     ("image", Some(JString(image.url))),
                     ("description", OptionalString(image.description)),
                     ("location", OptionalString(image.location)) ];
    DropNilValuesLast(entries, 0);
    DropNilValuesLast(entries, 1);
    assert image.description.Some? ==> DropNilValues(entries)["description"] == JString(image.description.value) by {
      if image.description.Some? {
        DropNilValuesLast(entries, 2);
      }
    }
    assert image.location.Some? ==> DropNilValues(entries)["location"] == JString(image.location.value) by {
      if image.location.Some? {
        DropNilValuesLast(entries, 3);
      }
    }
    JObject(DropNilValues(entries))
  }

  /** The `items` array of `createItemsJSON`: each image's `jsonValues`, in order. */
  function ItemsJson(feed: seq<FeedImage>): (elements: seq<Json>)
    ensures |elements| == |feed| && forall i :: 0 <= i < |feed| ==> elements[i] == ItemJson(feed[i])
  {
    if feed == [] then [] else [ItemJson(feed[0])] + ItemsJson(feed[1..])
  }

  /**
   * `createItemsJSON(items:)`: the root object, whose only key `items` holds
   * the elements unchanged, so that it decodes exactly as its elements do.
   */
  function RootJson(elements: seq<Json>): (root: Json)
    ensures root.JObject? && root.fields.Keys == {"items"} && root.fields["items"] == JArray(elements)
    ensures DecodeRoot(JsonText(root)) == DecodeItems(elements)
  {
    JObject(map["items" := JArray(elements)])
  }

  /** An item the tests build decodes back to the image it was built from. */
  lemma DecodeItemOfItemJson(image: FeedImage)
    ensures DecodeItem(ItemJson(image)) == Some(image)
  {
    ParseUuidOfUuidString(image.id);
  }

  /** A feed the tests serialise decodes back to the same images, in the same order. */
  lemma DecodeRootOfRootJson(feed: seq<FeedImage>)
    ensures DecodeRoot(JsonText(RootJson(ItemsJson(feed)))) == Some(feed)
  {
    var elements := ItemsJson(feed);
    forall i | 0 <= i < |feed|
      ensures DecodeItem(elements[i]) == Some(feed[i])
    {
      DecodeItemOfItemJson(feed[i]);
    }
    assert DecodeItems(elements).value == feed;
  }

  /** A present `null` reads exactly as an absent key. */
  lemma NullIsAbsent(fields: map<string, Json>, key: string)
    requires key in fields && fields[key] == JNull
    ensures DecodeOptionalString(fields, key) == DecodeOptionalString(fields - {key}, key)
  {
  }

  // ---------------------------------------------------------------------------
  // The recording client and the loader
  // ---------------------------------------------------------------------------

  /** The closure `load` hands to `get(from:completion:)`: the loader, held weakly. */
  datatype RequestCompletion = DeliverFeed(loader: RemoteFeedLoader)


  /** `RemoteFeedLoaderTests.HTTPClientSpy`: every request with its completion, in call order. */
  class HttpClientSpy {
    var messages: seq<Request<RequestCompletion>>

    constructor ()
      ensures messages == []
    {
      messages := [];
    }

    /** `requestedURLs`: the URL of every request, in order. */
    function RequestedURLs(): (urls: seq<Url>)
      reads this
      ensures |urls| == |messages| && forall i :: 0 <= i < |messages| ==> urls[i] == messages[i].url
    {
      Urls(messages)
    }

    /** `get(from:completion:)`: record the request; nothing is fetched. */
    method Get(url: Url, completion: RequestCompletion)
      modifies this
      ensures messages == old(messages) + [Request(url, completion)]
    {
      messages := messages + [Request(url, completion)];
    }

    /** `complete(with:at:)`: fail the index-th request with a client error. */
    method CompleteWithError(error: Error, index: nat)
      requires index < |messages|
      modifies messages[index].completion.loader
      ensures var loader := messages[index].completion.loader;
        loader.alive == old(loader.alive) &&
        loader.deliveries == old(loader.deliveries) +
          (if loader.alive then [FeedLoadOutcome(ClientFailure(error))] else [])
    {
      messages[index].completion.loader.RequestCompleted(ClientFailure(error));
    }

    /** `complete(withStatusCode:data:at:)`: answer the index-th request with a response for its URL. */
    method CompleteWithStatusCode(statusCode: int, body: Body, index: nat)
      requires index < |messages|
      modifies messages[index].completion.loader
      ensures var loader := messages[index].completion.loader;
        var response := HttpUrlResponse(messages[index].url, statusCode);
        loader.alive == old(loader.alive) &&
        loader.deliveries == old(loader.deliveries) +
          (if loader.alive then [FeedLoadOutcome(Received(response, body))] else [])
    {
      var response := HttpUrlResponse(RequestedURLs()[index], statusCode);
      messages[index].completion.loader.RequestCompleted(Received(response, body));
    }
  }

  /** `RemoteFeedLoader`: loads the feed at a fixed URL through a client. */
  class RemoteFeedLoader {
    const url: Url
    const client: HttpClientSpy
    /** False once the owner has released the loader; the client's closure then returns early. */
    var alive: bool
    /** Every call of a load caller's completion, in order. */
    var deliveries: seq<FeedLoaderResult>

    /** `init(url:client:)`: keeps both and requests nothing. */
    constructor (url: Url, client: HttpClientSpy)
      ensures this.url == url && this.client == client && alive && deliveries == []
    {
      this.url := url;
      this.client := client;
      alive := true;
      deliveries := [];
    }

    /** The owner drops its last reference to the loader; the `[weak self]` of every pending closure now finds nil. */
    method Release()
      modifies this
      ensures !alive && deliveries == old(deliveries)
    {
      alive := false;
    }

    /** `load(completion:)`: one GET for the configured URL. */
    method Load()
      modifies client
      ensures client.messages == old(client.messages) + [Request(url, DeliverFeed(this))]
    {
      client.Get(url, DeliverFeed(this));
    }

    /** The body of the client's closure: a live loader delivers the classified result. */
    method RequestCompleted(result: HttpClientResult<Body>)
      modifies this
      ensures alive == old(alive)
      ensures deliveries == old(deliveries) + (if alive then [FeedLoadOutcome(result)] else [])
    {
      if alive {
        deliveries := deliveries + [FeedLoadOutcome(result)];
      }
    }
  }
}
