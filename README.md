# Caching S3 proxy — verified model

A Dafny model of the request handling in `proxy/__init__.py`, the WSGI app
that puts a local cache in front of private S3 buckets:

- `CachingS3Proxy.proxy_s3_bucket` answers `/` with a fixed greeting; any
  other path has its leading and trailing `/` stripped and is cut at its first
  `/` into a bucket and an object key. The object is fetched; success is
  `200 OK` with `text/html` and the object bytes, any botocore client error is
  `404 NOT FOUND` with `text/plain` and the error message encoded as UTF-8. A
  path with no `/` left after stripping makes the two-name unpack raise.
- `CachingS3Proxy.fetch_s3_object` looks the object up in the cache under a
  digest of bucket and key. On a miss it asks the object store for the key
  and, only when the store says the key does not exist, once more for
  `key + "/index.html"`. A body is stored in the cache and returned; any
  other error propagates and leaves the cache alone.

Files:

- `wrappers.dfy` — `Option`.
- `utf8.dfy` — UTF-8 encoding of the error message (`bytes(message, 'UTF-8')`)
  and a decoder, with the round trip proved.
- `paths.dfy` — `str.strip('/')`, the split at the first `/`, and the route a
  request path takes.
- `proxy.dfy` — the object-store outcome, the fetch protocol as a function
  (`Fetch`, with the store calls it makes), the reply selection, the whole
  request (`Handle`), a cache-coherence invariant, and the class
  `CachingS3Proxy` whose methods update the cache field in place and keep a
  ghost trace of store calls; each method is proved equal to its function.

The object store and the MD5 digest are collaborators: the store is a
function from (bucket, key) to `Found(bytes) | NoSuchKey(message) |
OtherError(message)`, the digest a function from strings to strings. The
cache is a map from cache key to bytes.

What the code does not do, and the model therefore does not either: there
are no routes besides `/` and `/{bucket}/{key}` (no favicon or cache-reset
path); success is always served as `text/html`, whatever the key's
extension; the cache key is not normalised, so `dir/` and `dir` share a key
only because stripping removes the slash (`Paths.RouteIgnoresOuterSlashes`)
while `dir/index.html` has a key of its own (`Proxy.IndexPathHasItsOwnKey`);
and a path naming only a bucket raises instead of defaulting to
`index.html`.

The cache key is a parameter of the model (`Proxy.KeyScheme`): `AsWritten`
is the source's `md5(bucket+key)`, and `Separated` is the corrected key of
the Findings table below. `Proxy.Handle` and the class `CachingS3Proxy` are
stated for either scheme, so with `AsWritten` they are the program as it
is written.

## Model

| member | source | states |
|---|---|---|
| `Utf8.Encode` | proxy/__init__.py:39 | the UTF-8 bytes of a message are between one and four per character, and exactly one per character for ASCII text |
| `Utf8.DecodeEncode` | proxy/__init__.py:39 | encoding the error message loses nothing: decoding the bytes gives the message back |
| `Paths.LeadingSlashes` | proxy/__init__.py:30 | the count of leading characters removed is all slashes and stops at the first non-slash |
| `Paths.TrailingSlashes` | proxy/__init__.py:30 | the count of trailing characters removed is all slashes and stops at the last non-slash |
| `Paths.Strip` | proxy/__init__.py:30 | the stripped path neither starts nor ends with `/` |
| `Paths.StripRemovesOnlySlashes` | proxy/__init__.py:30 | the request path is the stripped path with only slashes before and after it |
| `Paths.StripPadded` | proxy/__init__.py:30 | any slashes around a trimmed string are exactly what stripping removes, so `/b/k`, `b/k/` and `/b/k//` strip to `b/k` |
| `Paths.StripIdempotent` | proxy/__init__.py:30 | stripping a stripped path changes nothing |
| `Paths.FindSlash` | proxy/__init__.py:31 | the cut point is the first `/`, or the end exactly when there is no `/` |
| `Paths.SplitUnique` | proxy/__init__.py:31 | a string splits at most one way into a slash-free bucket, a `/` and a key |
| `Paths.RouteOf` | proxy/__init__.py:19-31 | exactly `/` greets; a stripped path without `/` cannot be unpacked; otherwise the bucket has no `/`, bucket + `/` + key is the stripped path, and both are non-empty with the key not ending in `/` |
| `Paths.RouteOfSplit` | proxy/__init__.py:31 | any slash-free bucket and key that spell out the stripped path are the ones the route picks |
| `Paths.RouteIgnoresOuterSlashes` | proxy/__init__.py:30-31 | slashes around a non-empty trimmed path do not change its route |
| `Proxy.CacheKeyAsWritten` | proxy/__init__.py:47-49 | the source's cache key: the digest of `bucket+key`, so every bucket/key pair with the same concatenation gets the same key |
| `Proxy.CacheKey` | proxy/__init__.py:47-49 | the corrected cache key, the digest of `bucket/key`; for a routed object it is the digest of the request path after the strip of line 30 |
| `Proxy.CacheKeyAsWrittenCollides` | proxy/__init__.py:47-49 | the source key depends only on `bucket+key`, so the paths `/ab/c` and `/a/bc` route to different objects with the same cache key |
| `Proxy.CacheKeyDistinguishesObjects` | proxy/__init__.py:47-49 | with an injective digest, the separated key is equal for two routed objects exactly when bucket and key are equal |
| `Proxy.IndexPathHasItsOwnKey` | proxy/__init__.py:47-49 | under an injective digest, `key` and `key/index.html` never share a cache key, with the source's key and with the corrected one |
| `Proxy.AsResult` | proxy/__init__.py:57-60 | a found object becomes the fetched body; a NoSuchKey or any other client error becomes a client error with the same message |
| `Proxy.Fetch` | proxy/__init__.py:46-62 | a hit returns the stored bytes, calls nothing and keeps the cache; a miss first calls the store with `key`, calls it a second time, with `key/index.html`, exactly when the first says no such key, never a third time, and answers with the last call's outcome; a body is stored under the cache key and nothing else changes; an error leaves the cache unchanged |
| `Proxy.FetchKeepsCoherent` | proxy/__init__.py:60-61 | under either key scheme, filling the cache on a miss keeps every entry equal to what a cold fetch of its object returns |
| `Proxy.CoherentHitIsFaithful` | proxy/__init__.py:51-52 | with the corrected key and an injective digest, a hit in a coherent cache returns what a cold fetch of the same bucket and key would |
| `Proxy.ReplyFor` | proxy/__init__.py:32-44 | status is `200 OK` exactly on success, with `text/html` and the object bytes; `404 NOT FOUND` exactly on a client error, with `text/plain` and a body that decodes to the error message |
| `Proxy.Handle` | proxy/__init__.py:17-44 | for the given key scheme: `/` gets the greeting with no store call and no cache change; an unsplittable path raises the unpack error with no store call and no cache change; otherwise the reply for the fetch of the routed object; at most two store calls, and a 404 leaves the cache unchanged |
| `Proxy.HandleIgnoresOuterSlashes` | proxy/__init__.py:30-44 | `/b/k`, `b/k/` and `/b/k//` get the same reply, cache and store calls |
| `Proxy.HandleKeepsCoherent` | proxy/__init__.py:17-44 | under either key scheme, serving any request keeps a coherent cache coherent |
| `Proxy.AsWrittenKeyServesOtherObject` | proxy/__init__.py:17-62 | with the source's key, after `/ab/c` is served, `/a/bc` is answered with the bytes of `ab`/`c` and no store call, although the cache is coherent and the store holds other bytes at `a`/`bc` |
| `Proxy.SeparatedKeyServesEachObject` | proxy/__init__.py:17-62 | with the corrected key and an injective digest, the same two requests make `/a/bc` miss, ask the store for `a`/`bc` once and serve its bytes |
| `Proxy.CachingS3Proxy.constructor` | proxy/__init__.py:11-15 | the proxy starts with the given store, digest, key scheme and cache contents, and no store calls |
| `Proxy.CachingS3Proxy.Get` | proxy/__init__.py:57-60 | returns the store's answer for (bucket, key) and appends that call to the trace |
| `Proxy.CachingS3Proxy.FetchS3Object` | proxy/__init__.py:46-62 | result, new cache and new store calls are those of `Fetch` on the old cache under the proxy's key scheme (the source's with `AsWritten`); coherence is kept |
| `Proxy.CachingS3Proxy.ProxyS3Bucket` | proxy/__init__.py:17-44 | outcome, new cache and new store calls are those of `Handle` on the old cache under the proxy's key scheme; coherence is kept |

## Findings

| source | as written | input that shows it | evidently intended | confidence | as-written member | corrected member |
|---|---|---|---|---|---|---|
| proxy/__init__.py:47-49 | the cache key is the MD5 of `bucket+key` with nothing between bucket and key | `GET /ab/c`, then `GET /a/bc`: both have cache key `md5("abc")`, so the second is served the bytes of object `c` in bucket `ab` | one cache entry per (bucket, key) object | medium; not executed | `Proxy.CacheKeyAsWritten` (scheme `AsWritten`), shown by `Proxy.CacheKeyAsWrittenCollides` and `Proxy.AsWrittenKeyServesOtherObject` | `Proxy.CacheKey` (scheme `Separated`, digest of `bucket/key`), proved by `Proxy.CacheKeyDistinguishesObjects`, `Proxy.CoherentHitIsFaithful` and `Proxy.SeparatedKeyServesEachObject` |

## Left out

- The boto3 resource, credentials, network transport and `Body.read()`: the object store is the function `Store`; exceptions other than botocore client errors (connection failures, for instance), which the source does not catch, are not modelled.
- The object store does not change while the proxy runs: `Store` is one fixed function, so coherence is about a store whose objects stay put.
- The MD5 computation: the digest is a function parameter; properties that need distinct keys assume it is injective.
- `LRUCache` (`proxy/cache.py`) is not part of this model: capacity, eviction, recency order and disk persistence are not modelled. The cache is a map that keeps what is put in it; a real LRU may drop an entry at any time, which turns a later hit into a miss.
- Logging setup and the debug log call: global side effects with no effect on results.
- WSGI framing: `environ`, `start_response` and the response list are replaced by the path string and a returned status, content type and body; a request without `PATH_INFO` is the empty path, which routes to the unpack error.
- The constructor's defaults (capacity, `tempfile.gettempdir()`): configuration for the cache, which is not modelled; the constructor takes the cache's initial contents instead.
- Concurrency: the source has no locking, and duplicate concurrent misses are not modelled.
- Python strings holding lone surrogates, which `bytes(message, 'UTF-8')` refuses: Dafny characters are Unicode scalar values.
- The exception text of the unpack error is Python's wording as a constant; its traceback is not modelled.
