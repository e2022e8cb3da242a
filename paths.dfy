/**
 * How `CachingS3Proxy.proxy_s3_bucket` turns the request's PATH_INFO into a
 * decision: the greeting for `/`, otherwise the path with every leading and
 * trailing `/` removed (Python's `str.strip('/')`) and cut at its first `/`
 * into a bucket and an object key (`str.split('/', 1)` unpacked into two
 * names, which raises when there is no `/` to cut at).
 */
module Paths {
  const Slash: char := '/'

  predicate AllSlashes(s: string) {
    forall i :: 0 <= i < |s| ==> s[i] == Slash
  }

  /** Neither starts nor ends with a slash: what `strip('/')` leaves. */
  predicate Trimmed(s: string) {
    s == [] || (s[0] != Slash && s[|s| - 1] != Slash)
  }

  /** How many slashes `s` starts with. */
  function LeadingSlashes(s: string): (n: nat)
    ensures n <= |s| && AllSlashes(s[..n])
    ensures n == |s| || s[n] != Slash
  {
    if s != [] && s[0] == Slash then
      var n := 1 + LeadingSlashes(s[1..]);
      assert s[..n] == [s[0]] + s[1..][..n - 1];
      n
    else 0
  }

  /** How many slashes `s` ends with. */
  function TrailingSlashes(s: string): (n: nat)
    ensures n <= |s| && AllSlashes(s[|s| - n..])
    ensures n == |s| || s[|s| - n - 1] != Slash
  {
    if s != [] && s[|s| - 1] == Slash then
      var n := 1 + TrailingSlashes(s[..|s| - 1]);
      assert s[|s| - n..] == s[..|s| - 1][|s| - n..] + [Slash];
      n
    else 0
  }

  /** `s.strip('/')`: what is left of `s` between its leading and trailing slashes. */
  function Strip(s: string): (r: string)
    ensures Trimmed(r)
  {
    var tail := s[LeadingSlashes(s)..];
    tail[..|tail| - TrailingSlashes(tail)]
  }

  /** Cutting `s` after `n` characters and its rest before its last `m` gives three parts that spell `s`. */
  lemma CutThree(s: string, n: nat, m: nat)
    requires n <= |s| && m <= |s| - n
    ensures s == s[..n] + s[n..][..|s[n..]| - m] + s[n..][|s[n..]| - m..]
  {
    var tail := s[n..];
    assert tail == tail[..|tail| - m] + tail[|tail| - m..];
    assert s == s[..n] + tail;
  }

  /**
   * `strip('/')` removes slashes only: `s` is its result with the slashes
   * `p` before it and `q` after it.
   */
  lemma StripRemovesOnlySlashes(s: string) returns (p: string, q: string)
    ensures AllSlashes(p) && AllSlashes(q) && s == p + Strip(s) + q
  {
    var n := LeadingSlashes(s);
    var tail := s[n..];
    var m := TrailingSlashes(tail);
    p, q := s[..n], tail[|tail| - m..];
    CutThree(s, n, m);
  }

  lemma {:induction false} LeadingSlashesPadded(p: string, r: string)
    requires AllSlashes(p) && (r == [] || r[0] != Slash)
    ensures LeadingSlashes(p + r) == |p|
  {
    if p != [] {
      assert (p + r)[1..] == p[1..] + r;
      LeadingSlashesPadded(p[1..], r);
    }
  }

  lemma {:induction false} TrailingSlashesPadded(r: string, q: string)
    requires AllSlashes(q) && (r == [] || r[|r| - 1] != Slash)
    ensures TrailingSlashes(r + q) == |q|
  {
    if q != [] {
      assert (r + q)[..|r + q| - 1] == r + q[..|q| - 1];
      TrailingSlashesPadded(r, q[..|q| - 1]);
    }
  }

  /**
   * Slashes around a trimmed string are exactly what `strip('/')` removes:
   * `/b/k`, `b/k/` and `/b/k//` all strip to `b/k`.
   */
  lemma StripPadded(p: string, r: string, q: string)
    requires AllSlashes(p) && AllSlashes(q) && Trimmed(r)
    ensures Strip(p + r + q) == r
  {
    var s := p + r + q;
    if r == [] {
      assert s == (p + q) + [];
      assert AllSlashes(p + q);
      LeadingSlashesPadded(p + q, []);
    } else {
      assert s == p + (r + q);
      LeadingSlashesPadded(p, r + q);
      assert s[|p|..] == r + q;
      TrailingSlashesPadded(r, q);
      assert (r + q)[..|r|] == r;
    }
  }

  /** Stripping twice is stripping once. */
  lemma StripIdempotent(s: string)
    ensures Strip(Strip(s)) == Strip(s)
  {
  }

  /** Index of the first slash in `s`, or `|s|` when there is none. */
  function FindSlash(s: string): (i: nat)
    ensures i <= |s| && Slash !in s[..i]
    ensures i < |s| <==> Slash in s
    ensures i < |s| ==> s[i] == Slash
  {
    if s == [] then 0
    else if s[0] == Slash then 0
    else
      var i := 1 + FindSlash(s[1..]);
      assert s[..i] == [s[0]] + s[1..][..i - 1];
      i
  }

  /** A string is cut at most one way into a slash-free head, a slash and a tail. */
  lemma SplitUnique(b1: string, k1: string, b2: string, k2: string)
    requires Slash !in b1 && Slash !in b2
    requires b1 + [Slash] + k1 == b2 + [Slash] + k2
    ensures b1 == b2 && k1 == k2
  {
    var s := b1 + [Slash] + k1;
    assert forall i :: 0 <= i < |b1| ==> s[i] == b1[i] != Slash;
    assert forall i :: 0 <= i < |b2| ==> s[i] == b2[i] != Slash;
    assert s[|b1|] == Slash && s[|b2|] == Slash;
    assert |b1| == |b2|;
    assert b1 == s[..|b1|] == b2;
    assert k1 == s[|b1| + 1..] == k2;
  }

  /** What a request path resolves to. */
  datatype Route =
    | Greet                                 // the exact path `/`
    | Object(bucket: string, key: string)   // an object in a bucket
    | Unsplittable(stripped: string)        // no `/` left to split at: the unpack raises

  /** The route `proxy_s3_bucket` takes for the request path `path`. */
  function RouteOf(path: string): (r: Route)
    ensures r.Greet? <==> path == "/"
    ensures r.Unsplittable? <==> path != "/" && Slash !in Strip(path)
    ensures r.Object? ==>
      && Slash !in r.bucket
      && r.bucket + [Slash] + r.key == Strip(path)
      && r.bucket != [] && r.key != [] && r.key[|r.key| - 1] != Slash
  {
    if path == "/" then Greet
    else
      var s := Strip(path);
      var i := FindSlash(s);
      if i == |s| then Unsplittable(s)
      else
        var bucket, key := s[..i], s[i + 1..];
        assert s[0] != Slash && s[|s| - 1] != Slash;
        assert 0 < i < |s| - 1;
        assert key[|key| - 1] == s[|s| - 1];
        assert s == bucket + [Slash] + key;
        Object(bucket, key)
  }

  /**
   * The split is the only one possible: any slash-free bucket that, with a
   * slash and a key, spells out the stripped path is the one chosen.
   */
  lemma RouteOfSplit(path: string, bucket: string, key: string)
    requires path != "/" && Slash !in bucket
    requires bucket + [Slash] + key == Strip(path)
    ensures RouteOf(path) == Object(bucket, key)
  {
    var r := RouteOf(path);
    assert Slash in Strip(path) by {
      assert Strip(path)[|bucket|] == Slash;
    }
    SplitUnique(r.bucket, r.key, bucket, key);
  }

  /**
   * Leading and trailing slashes never change the route of a non-empty
   * trimmed path: `/b/k`, `b/k/` and `/b/k//` resolve alike.
   */
  lemma RouteIgnoresOuterSlashes(p: string, r: string, q: string)
    requires AllSlashes(p) && AllSlashes(q) && Trimmed(r) && r != []
    ensures RouteOf(p + r + q) == RouteOf(r)
  {
    StripPadded(p, r, q);
    StripPadded([], r, []);
    assert [] + r + [] == r;
    assert r != "/";
    assert p + r + q != "/" by {
      assert |p + r + q| >= 1;
      if |p + r + q| == 1 {
        assert p + r + q == r;
      }
    }
  }
}
