/**
 * The caching S3 proxy: `CachingS3Proxy.fetch_s3_object` (cache lookup, one
 * directory-index retry on a missing key, cache fill) and
 * `CachingS3Proxy.proxy_s3_bucket` (route the request path, turn the fetch
 * outcome into a status, a content type and a body).
 *
 * The object store and the MD5 digest are collaborators the proxy does not
 * define; they are given to the model as functions. The cache is a map from
 * cache key to object bytes, with no eviction.
 */
module Proxy {
  import opened Wrappers
  import opened Utf8
  import opened Paths

  /** What one `s3.Object(bucket, key).get()` and `Body.read()` comes to. */
  datatype StoreOutcome =
    | Found(body: seq<byte>)
    | NoSuchKey(message: string)      // the client's NoSuchKey error
    | OtherError(message: string)     // any other botocore ClientError

  /** The object store as the proxy sees it: what a request for a bucket and key gives. */
  type Store = (string, string) -> StoreOutcome

  /** The hex digest (MD5 in the source) of a string. */
  type Digest = string -> string

  /** One request made to the object store. */
  datatype StoreCall = StoreCall(bucket: string, key: string)

  type Cache = map<string, seq<byte>>

  /** Appended to a key that the store does not have, for one more try. */
  const IndexSuffix: string := "/index.html"

  /** What `fetch_s3_object` returns, or the ClientError it raises. */
  datatype FetchResult = Fetched(body: seq<byte>) | ClientError(message: string)

  /** A fetch's result, the cache after it and the store calls it made, in order. */
  datatype FetchStep = FetchStep(result: FetchResult, cache: Cache, calls: seq<StoreCall>)

  ghost predicate Injective(digest: Digest) {
    forall x, y :: digest(x) == digest(y) ==> x == y
  }

  /**
   * The cache key as the source computes it: the digest of `bucket + key`,
   * with nothing between the two.
   */
  function CacheKeyAsWritten(digest: Digest, bucket: string, key: string): (ck: string)
    ensures forall b, k :: b + k == bucket + key ==> digest(b + k) == ck
  {
    digest(bucket + key)
  }

  /**
   * The cache key with a separator: the digest of `bucket/key`, which for a
   * routed object is the digest of the request path once stripped.
   */
  function CacheKey(digest: Digest, bucket: string, key: string): (ck: string)
    ensures bucket != [] && Slash !in bucket && key != [] && Trimmed(key) ==>
      ck == digest(Strip([Slash] + bucket + [Slash] + key))
  {
    if bucket != [] && Slash !in bucket && key != [] && Trimmed(key) then
      var r := bucket + [Slash] + key;
      assert [Slash] + bucket + [Slash] + key == [Slash] + r + [];
      assert Trimmed(r) by { assert r[0] == bucket[0] && r[|r| - 1] == key[|key| - 1]; }
      StripPadded([Slash], r, []);
      digest(r)
    else
      digest(bucket + [Slash] + key)
  }

  /** Which cache key a proxy uses: the source's, or the one with a separator. */
  datatype KeyScheme = AsWritten | Separated

  function KeyFor(scheme: KeyScheme, digest: Digest, bucket: string, key: string): string {
    match scheme
    case AsWritten => CacheKeyAsWritten(digest, bucket, key)
    case Separated => CacheKey(digest, bucket, key)
  }

  /** The path `/bucket/key` routes to `bucket` and `key` when both are plain names. */
  lemma RoutesTo(bucket: string, key: string)
    requires bucket != [] && Slash !in bucket && Trimmed(key) && key != []
    ensures RouteOf([Slash] + bucket + [Slash] + key) == Object(bucket, key)
  {
    var path := [Slash] + bucket + [Slash] + key;
    var r := bucket + [Slash] + key;
    assert path == [Slash] + r + [];
    assert Trimmed(r) by { assert r[0] == bucket[0] && r[|r| - 1] == key[|key| - 1]; }
    StripPadded([Slash], r, []);
    assert path != "/" by { assert |path| > 1; }
    RouteOfSplit(path, bucket, key);
  }

  /** The source cache key is not one per object: `ab`/`c` and `a`/`bc` share it. */
  lemma CacheKeyAsWrittenCollides(digest: Digest)
    ensures RouteOf("/ab/c") == Object("ab", "c")
    ensures RouteOf("/a/bc") == Object("a", "bc")
    ensures CacheKeyAsWritten(digest, "ab", "c") == CacheKeyAsWritten(digest, "a", "bc")
  {
    assert "/ab/c" == [Slash] + "ab" + [Slash] + "c";
    assert "/a/bc" == [Slash] + "a" + [Slash] + "bc";
    assert Slash !in "ab" && Slash !in "a";
    RoutesTo("ab", "c");
    RoutesTo("a", "bc");
    assert "ab" + "c" == "a" + "bc";
  }

  /**
   * With an injective digest, the separated cache key tells objects apart:
   * two routed (bucket, key) pairs share a key only when they are equal.
   */
  lemma CacheKeyDistinguishesObjects(digest: Digest, b1: string, k1: string, b2: string, k2: string)
    requires Injective(digest) && Slash !in b1 && Slash !in b2
    ensures CacheKey(digest, b1, k1) == CacheKey(digest, b2, k2) <==> b1 == b2 && k1 == k2
  {
    if CacheKey(digest, b1, k1) == CacheKey(digest, b2, k2) {
      SplitUnique(b1, k1, b2, k2);
    }
  }

  /**
   * Neither key equates `dir` with `dir/index.html`: under an injective
   * digest their keys differ, with the source's key and with the separated one.
   */
  lemma IndexPathHasItsOwnKey(digest: Digest, bucket: string, key: string)
    requires Injective(digest)
    ensures CacheKeyAsWritten(digest, bucket, key) != CacheKeyAsWritten(digest, bucket, key + IndexSuffix)
    ensures CacheKey(digest, bucket, key) != CacheKey(digest, bucket, key + IndexSuffix)
  {
    assert |bucket + key| < |bucket + (key + IndexSuffix)|;
    assert |bucket + [Slash] + key| < |bucket + [Slash] + (key + IndexSuffix)|;
  }

  /** The result a store outcome gives `fetch_s3_object`: the body, or the error raised. */
  function AsResult(o: StoreOutcome): (r: FetchResult)
    ensures r.Fetched? <==> o.Found?
    ensures r.Fetched? ==> r.body == o.body
    ensures r.ClientError? ==> r.message == o.message
  {
    match o
    case Found(body) => Fetched(body)
    case NoSuchKey(message) => ClientError(message)
    case OtherError(message) => ClientError(message)
  }

  /**
   * `fetch_s3_object(bucket, key)` with cache key `ck` against `cache`: a hit
   * is served as stored; a miss asks the store for `key` and, only when that
   * key does not exist, once more for `key + "/index.html"`; the last answer
   * is the result, and a body is stored under `ck`.
   */
  function Fetch(cache: Cache, store: Store, ck: string, bucket: string, key: string): (step: FetchStep)
    ensures ck in cache ==> step == FetchStep(Fetched(cache[ck]), cache, [])
    ensures ck !in cache ==>
      && 1 <= |step.calls| <= 2
      && step.calls[0] == StoreCall(bucket, key)
      && (|step.calls| == 2 <==> store(bucket, key).NoSuchKey?)
      && (|step.calls| == 2 ==> step.calls[1] == StoreCall(bucket, key + IndexSuffix))
      && step.result == AsResult(store(step.calls[|step.calls| - 1].bucket, step.calls[|step.calls| - 1].key))
    ensures step.result.Fetched? ==> step.cache == cache[ck := step.result.body]
    ensures step.result.ClientError? ==> step.cache == cache
  {
    if ck in cache then
      FetchStep(Fetched(cache[ck]), cache, [])
    else
      var retry := store(bucket, key).NoSuchKey?;
      var outcome := if retry then store(bucket, key + IndexSuffix) else store(bucket, key);
      var calls :=
        if retry then [StoreCall(bucket, key), StoreCall(bucket, key + IndexSuffix)]
        else [StoreCall(bucket, key)];
      match outcome
      case Found(body) => FetchStep(Fetched(body), cache[ck := body], calls)
      case _ => FetchStep(AsResult(outcome), cache, calls)
  }

  /**
   * Every cache entry holds what a cold fetch of some routed (bucket, key)
   * with that cache key returns.
   */
  ghost predicate Coherent(cache: Cache, store: Store, digest: Digest, scheme: KeyScheme) {
    forall ck :: ck in cache ==>
      exists bucket, key ::
        && Slash !in bucket
        && KeyFor(scheme, digest, bucket, key) == ck
        && Fetch(map[], store, ck, bucket, key).result == Fetched(cache[ck])
  }

  /** Filling the cache on a miss keeps every entry what the store serves. */
  lemma FetchKeepsCoherent(cache: Cache, store: Store, digest: Digest, scheme: KeyScheme, bucket: string, key: string)
    requires Coherent(cache, store, digest, scheme) && Slash !in bucket
    ensures Coherent(Fetch(cache, store, KeyFor(scheme, digest, bucket, key), bucket, key).cache, store, digest, scheme)
  {
  }

  /**
   * With the separated key and an injective digest, a hit in a coherent
   * cache serves exactly what a cold fetch of the same bucket and key would.
   */
  lemma CoherentHitIsFaithful(cache: Cache, store: Store, digest: Digest, bucket: string, key: string)
    requires Coherent(cache, store, digest, Separated) && Injective(digest) && Slash !in bucket
    ensures var ck := CacheKey(digest, bucket, key);
      ck in cache ==> Fetch(cache, store, ck, bucket, key).result == Fetch(map[], store, ck, bucket, key).result
  {
    var ck := CacheKey(digest, bucket, key);
    if ck in cache {
      var b, k :| Slash !in b && KeyFor(Separated, digest, b, k) == ck
                  && Fetch(map[], store, ck, b, k).result == Fetched(cache[ck]);
      CacheKeyDistinguishesObjects(digest, b, k, bucket, key);
    }
  }

  /** The body of a response: the source returns a text greeting or bytes. */
  datatype Body = Text(text: string) | Bytes(bytes: seq<byte>)

  /** Status line, Content-type header and body handed to the WSGI server. */
  datatype Reply = Reply(status: string, contentType: string, body: Body)

  /** What `proxy_s3_bucket` does with a request: serve a reply or raise. */
  datatype Outcome = Served(reply: Reply) | Raised(error: string)

  const Greeting: Reply := Reply("200 OK", "text/plain", Text("Caching S3 Proxy"))

  /** Unpacking the one-element result of `split('/', 1)` into two names. */
  const UnpackError: string := "ValueError: not enough values to unpack (expected 2, got 1)"

  /**
   * The reply to a fetch: the object as `text/html` with `200 OK`, or, on
   * any client error, its message as UTF-8 `text/plain` with `404 NOT FOUND`.
   */
  function ReplyFor(r: FetchResult): (reply: Reply)
    ensures reply.status == "200 OK" <==> r.Fetched?
    ensures reply.status == "404 NOT FOUND" <==> r.ClientError?
    ensures r.Fetched? ==> reply.contentType == "text/html" && reply.body == Bytes(r.body)
    ensures r.ClientError? ==>
      reply.contentType == "text/plain" && reply.body.Bytes? && Decode(reply.body.bytes) == Some(r.message)
  {
    match r
    case Fetched(body) => Reply("200 OK", "text/html", Bytes(body))
    case ClientError(message) =>
      DecodeEncode(message);
      Reply("404 NOT FOUND", "text/plain", Bytes(Encode(message)))
  }

  /** A request's outcome, the cache after it and the store calls it made. */
  datatype Exchange = Exchange(outcome: Outcome, cache: Cache, calls: seq<StoreCall>)

  /** `proxy_s3_bucket` for the request path `path`. */
  function Handle(cache: Cache, store: Store, digest: Digest, scheme: KeyScheme, path: string): (x: Exchange)
    ensures path == "/" ==> x == Exchange(Served(Greeting), cache, [])
    ensures RouteOf(path).Unsplittable? ==> x == Exchange(Raised(UnpackError), cache, [])
    ensures RouteOf(path).Object? ==>
      var step := Fetch(cache, store, KeyFor(scheme, digest, RouteOf(path).bucket, RouteOf(path).key),
                        RouteOf(path).bucket, RouteOf(path).key);
      x == Exchange(Served(ReplyFor(step.result)), step.cache, step.calls)
    ensures |x.calls| <= 2
    ensures x.outcome.Served? && x.outcome.reply.status == "404 NOT FOUND" ==> x.cache == cache
  {
    match RouteOf(path)
    case Greet => Exchange(Served(Greeting), cache, [])
    case Unsplittable(_) => Exchange(Raised(UnpackError), cache, [])
    case Object(bucket, key) =>
      var step := Fetch(cache, store, KeyFor(scheme, digest, bucket, key), bucket, key);
      Exchange(Served(ReplyFor(step.result)), step.cache, step.calls)
  }

  /**
   * Slashes around a path do not change how it is served: `/b/k`, `b/k/`
   * and `/b/k//` get the same reply, cache and store calls.
   */
  lemma HandleIgnoresOuterSlashes(cache: Cache, store: Store, digest: Digest, scheme: KeyScheme, p: string, r: string, q: string)
    requires AllSlashes(p) && AllSlashes(q) && Trimmed(r) && r != []
    ensures Handle(cache, store, digest, scheme, p + r + q) == Handle(cache, store, digest, scheme, r)
  {
    RouteIgnoresOuterSlashes(p, r, q);
  }

  /** Serving a request keeps a coherent cache coherent. */
  lemma HandleKeepsCoherent(cache: Cache, store: Store, digest: Digest, scheme: KeyScheme, path: string)
    requires Coherent(cache, store, digest, scheme)
    ensures Coherent(Handle(cache, store, digest, scheme, path).cache, store, digest, scheme)
  {
  }

  /**
   * The source's key on the request `/a/bc` after `/ab/c`: the second
   * request is served the bytes of `ab`/`c` without asking the store,
   * although the cache is coherent and the store holds other bytes at `a`/`bc`.
   */
  lemma AsWrittenKeyServesOtherObject(store: Store, digest: Digest)
    requires store("ab", "c").Found? && store("a", "bc").Found?
    requires store("ab", "c") != store("a", "bc")
    ensures var first := Handle(map[], store, digest, AsWritten, "/ab/c");
      var second := Handle(first.cache, store, digest, AsWritten, "/a/bc");
      && Coherent(first.cache, store, digest, AsWritten)
      && second.calls == []
      && second.outcome == Served(ReplyFor(Fetched(store("ab", "c").body)))
      && second.outcome != Served(ReplyFor(AsResult(store("a", "bc"))))
  {
    CacheKeyAsWrittenCollides(digest);
    HandleKeepsCoherent(map[], store, digest, AsWritten, "/ab/c");
  }

  /**
   * The separated key on the same two requests: with an injective digest the
   * second one misses, asks the store for `a`/`bc` and serves its bytes.
   */
  lemma SeparatedKeyServesEachObject(store: Store, digest: Digest)
    requires Injective(digest)
    requires store("ab", "c").Found? && store("a", "bc").Found?
    ensures var first := Handle(map[], store, digest, Separated, "/ab/c");
      var second := Handle(first.cache, store, digest, Separated, "/a/bc");
      && second.calls == [StoreCall("a", "bc")]
      && second.outcome == Served(ReplyFor(Fetched(store("a", "bc").body)))
  {
    CacheKeyAsWrittenCollides(digest);
    assert Slash !in "ab" && Slash !in "a" && "ab" != "a";
    CacheKeyDistinguishesObjects(digest, "ab", "c", "a", "bc");
    var first := Handle(map[], store, digest, Separated, "/ab/c");
    assert first.cache.Keys <= {CacheKey(digest, "ab", "c")};
    assert CacheKey(digest, "a", "bc") !in first.cache;
  }

  /** The proxy: a cache filled from the object store. */
  class CachingS3Proxy {
    var cache: Cache
    /** The store requests made so far, in order. */
    ghost var calls: seq<StoreCall>
    const store: Store
    const digest: Digest
    /** `AsWritten` is the source's cache key; `Separated` is the corrected one. */
    const scheme: KeyScheme

    /** `cache` is what the LRU cache holds when it is opened (it may be read back from disk). */
    constructor (store: Store, digest: Digest, scheme: KeyScheme, cache: Cache)
      ensures this.store == store && this.digest == digest && this.scheme == scheme
      ensures this.cache == cache && calls == []
    {
      this.store := store;
      this.digest := digest;
      this.scheme := scheme;
      this.cache := cache;
      calls := [];
    }

    /** One request to the object store, recorded in `calls`. */
    method Get(bucket: string, key: string) returns (o: StoreOutcome)
      modifies this`calls
      ensures o == store(bucket, key)
      ensures calls == old(calls) + [StoreCall(bucket, key)]
    {
      o := store(bucket, key);
      calls := calls + [StoreCall(bucket, key)];
    }

    method FetchS3Object(bucket: string, key: string) returns (r: FetchResult)
      modifies this
      ensures var step := Fetch(old(cache), store, KeyFor(scheme, digest, bucket, key), bucket, key);
        r == step.result && cache == step.cache && calls == old(calls) + step.calls
      ensures old(Coherent(cache, store, digest, scheme)) && Slash !in bucket ==> Coherent(cache, store, digest, scheme)
    {
      var ck := KeyFor(scheme, digest, bucket, key);
      if ck in cache {
        return Fetched(cache[ck]);
      }
      var outcome := Get(bucket, key);
      if outcome.NoSuchKey? {
        outcome := Get(bucket, key + IndexSuffix);
      }
      match outcome
      case Found(body) =>
        cache := cache[ck := body];
        r := Fetched(body);
      case NoSuchKey(message) =>
        r := ClientError(message);
      case OtherError(message) =>
        r := ClientError(message);
    }

    method ProxyS3Bucket(path: string) returns (o: Outcome)
      modifies this
      ensures var x := Handle(old(cache), store, digest, scheme, path);
        o == x.outcome && cache == x.cache && calls == old(calls) + x.calls
      ensures old(Coherent(cache, store, digest, scheme)) ==> Coherent(cache, store, digest, scheme)
    {
      match RouteOf(path)
      case Greet =>
        o := Served(Greeting);
      case Unsplittable(_) =>
        o := Raised(UnpackError);
      case Object(bucket, key) =>
        var r := FetchS3Object(bucket, key);
        o := Served(ReplyFor(r));
    }
  }
}
