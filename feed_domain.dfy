/**
 * The value types shared by every part of the feed: images, their cache-side
 * mirror, errors, URLs, bytes and timestamps.
 */
module FeedDomain {
  import opened Wrappers

  /** One byte of a `Data` buffer. */
  newtype byte = x: int | 0 <= x < 256

  type Data = seq<byte>
  type Url = string

  /** A `Date`, as whole seconds on one time line. */
  type Timestamp = int

  /**
   * A UUID in the canonical form `uuidString` produces: 36 characters,
   * hyphens at positions 8, 13, 18 and 23, upper-case hexadecimal elsewhere.
   */
  predicate IsCanonicalUuid(s: string) {
    |s| == 36 && forall i :: 0 <= i < 36 ==> UuidCharOk(s, i)
  }

  predicate IsHyphenPosition(i: int) { i == 8 || i == 13 || i == 18 || i == 23 }

  predicate UuidCharOk(s: string, i: int)
    requires 0 <= i < |s|
  {
    if IsHyphenPosition(i) then s[i] == '-' else IsUpperHex(s[i])
  }

  predicate IsUpperHex(c: char) { '0' <= c <= '9' || 'A' <= c <= 'F' }
  predicate IsLowerHex(c: char) { 'a' <= c <= 'f' }

  type Uuid = s: string | IsCanonicalUuid(s) witness "00000000-0000-0000-0000-000000000000"

  /** Text `UUID(uuidString:)` accepts: the canonical layout, with hexadecimal digits of either case. */
  predicate IsUuidText(s: string) {
    |s| == 36 && forall i :: 0 <= i < 36 ==> UuidTextCharOk(s, i)
  }

  predicate UuidTextCharOk(s: string, i: int)
    requires 0 <= i < |s|
  {
    if IsHyphenPosition(i) then s[i] == '-' else IsUpperHex(s[i]) || IsLowerHex(s[i])
  }

  function UpperHex(c: char): (u: char)
    ensures IsLowerHex(c) ==> IsUpperHex(u) && u != c
    ensures !IsLowerHex(c) ==> u == c
  {
    if IsLowerHex(c) then (c as int - 32) as char else c
  }

  /**
   * A UUID read from text, as JSON decoding of a `UUID` does: accepted text
   * becomes the UUID whose `uuidString` is that text in upper case, and
   * any other text is rejected.
   */
  function ParseUuid(s: string): (u: Option<Uuid>)
    ensures u.Some? <==> IsUuidText(s)
    ensures u.Some? ==> forall i :: 0 <= i < 36 ==> u.value[i] == UpperHex(s[i])
  {
    if IsUuidText(s) then
      var t := seq(36, i requires 0 <= i < 36 => UpperHex(s[i]));
      assert forall i :: 0 <= i < 36 ==> UuidCharOk(t, i) by {
        forall i | 0 <= i < 36
          ensures UuidCharOk(t, i)
        {
          assert UuidTextCharOk(s, i);
        }
      }
      Some(t)
    else
      None
  }

  /** A UUID's own `uuidString` reads back as the same UUID. */
  lemma ParseUuidOfUuidString(u: Uuid)
    ensures ParseUuid(u) == Some(u)
  {
    assert IsUuidText(u) by {
      forall i | 0 <= i < 36
        ensures UuidTextCharOk(u, i)
      {
        assert UuidCharOk(u, i);
      }
    }
    var t := ParseUuid(u).value;
    forall i | 0 <= i < 36
      ensures t[i] == u[i]
    {
      assert UuidCharOk(u, i);
    }
    assert IsCanonicalUuid(t);
    assert t == u;
  }

  /**
   * The errors the feed's components exchange. Swift's `Error` is an open
   * existential; the store and the network report arbitrary errors, compared
   * by identity in the tests, which `AnyError(code)` stands for. The other
   * constructors are the domain errors the loaders define themselves.
   */
  datatype Error =
    | AnyError(code: nat)      // an error coming from a store or an HTTP client
    | NotFound                 // LocalFeedImageDataLoader.LoadError.notFound
    | InvalidData              // RemoteFeedLoader.Error.invalidData / RemoteFeedImageDataLoader.Error.invalidData
    | Connectivity             // RemoteFeedLoader.Error.connectivity

  /** The domain image of the feed. */
  datatype FeedImage = FeedImage(id: Uuid, description: Option<string>, location: Option<string>, url: Url)

  /** The storage-facing mirror of `FeedImage`, with the same fields. */
  datatype LocalFeedImage = LocalFeedImage(id: Uuid, description: Option<string>, location: Option<string>, url: Url)

  /** The result every feed loader delivers. */
  type FeedLoaderResult = Result<seq<FeedImage>, Error>

  function ToLocalImage(image: FeedImage): LocalFeedImage {
    LocalFeedImage(image.id, image.description, image.location, image.url)
  }

  function ToModelImage(image: LocalFeedImage): FeedImage {
    FeedImage(image.id, image.description, image.location, image.url)
  }

  /** `[FeedImage].toLocal()`: field by field, in order. */
  function ToLocal(feed: seq<FeedImage>): (local: seq<LocalFeedImage>)
    ensures |local| == |feed|
    ensures forall k :: 0 <= k < |feed| ==>
              local[k].id == feed[k].id && local[k].description == feed[k].description &&
              local[k].location == feed[k].location && local[k].url == feed[k].url
  {
    if feed == [] then [] else [ToLocalImage(feed[0])] + ToLocal(feed[1..])
  }

  /** `[LocalFeedImage].toModel()`: field by field, in order. */
  function ToModel(local: seq<LocalFeedImage>): (feed: seq<FeedImage>)
    ensures |feed| == |local|
    ensures forall k :: 0 <= k < |local| ==>
              feed[k].id == local[k].id && feed[k].description == local[k].description &&
              feed[k].location == local[k].location && feed[k].url == local[k].url
  {
    if local == [] then [] else [ToModelImage(local[0])] + ToModel(local[1..])
  }

  /** Mapping a feed to its cache form and back gives the same feed. */
  lemma {:induction false} ModelOfLocal(feed: seq<FeedImage>)
    ensures ToModel(ToLocal(feed)) == feed
  {
    if feed != [] {
      ModelOfLocal(feed[1..]);
    }
  }

  /** Mapping cached images to the domain and back gives the same cached images. */
  lemma {:induction false} LocalOfModel(local: seq<LocalFeedImage>)
    ensures ToLocal(ToModel(local)) == local
  {
    if local != [] {
      LocalOfModel(local[1..]);
    }
  }

  /** Distinct feeds have distinct cache forms (toLocal loses nothing). */
  lemma ToLocalInjective(a: seq<FeedImage>, b: seq<FeedImage>)
    requires ToLocal(a) == ToLocal(b)
    ensures a == b
  {
    ModelOfLocal(a);
    ModelOfLocal(b);
  }
}
