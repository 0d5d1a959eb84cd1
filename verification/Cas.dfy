/** Content-addressable storage: lowercase base16, locator URIs, object paths, the object table. */
module Cas {
  import opened Wrappers
  import opened Paths
  import opened Tables

  // ----- base16 (section 8 of RFC 4648), in lower case -----

  function HexDigit(d: nat): char
    requires d < 16
  {
    if d < 10 then '0' + d as char else 'a' + (d - 10) as char
  }

  function Encode(b: Bytes): (s: string)
    ensures |s| == 2 * |b| && '/' !in s
  {
    if b == [] then [] else [HexDigit(b[0] / 16), HexDigit(b[0] % 16)] + Encode(b[1..])
  }

  function FromHexDigit(c: char): (d: Option<nat>)
    ensures d.Some? ==> d.value < 16
  {
    if '0' <= c <= '9' then Some((c - '0') as nat)
    else if 'a' <= c <= 'f' then Some((c - 'a') as nat + 10)
    else if 'A' <= c <= 'F' then Some((c - 'A') as nat + 10)
    else None
  }

  /** hex.DecodeString with its error dropped: the bytes decoded before the first malformed pair. */
  function Decode(s: string): Bytes {
    if |s| < 2 || FromHexDigit(s[0]).None? || FromHexDigit(s[1]).None? then []
    else [16 * FromHexDigit(s[0]).value + FromHexDigit(s[1]).value] + Decode(s[2..])
  }

  lemma {:induction false} DecodeEncode(b: Bytes)
    ensures Decode(Encode(b)) == b
  {
    if b != [] {
      DecodeEncode(b[1..]);
      var s := Encode(b);
      assert s[2..] == Encode(b[1..]);
      assert FromHexDigit(s[0]) == Some(b[0] / 16) && FromHexDigit(s[1]) == Some(b[0] % 16);
    }
  }

  lemma EncodeInjective(a: Bytes, b: Bytes)
    requires Encode(a) == Encode(b)
    ensures a == b
  {
    DecodeEncode(a);
    DecodeEncode(b);
  }

  // ----- locator URIs -----

  const SCHEME := "file"

  function UriOf(scheme: string, hash: string): string { scheme + ":///" + hash }

  /** The part behind the last '/'. */
  function LastPart(uri: string): string { Last(Split(uri, '/')) }

  predicate IsLetter(c: char) { 'a' <= c <= 'z' || 'A' <= c <= 'Z' }

  function ToLower(s: string): string {
    seq(|s|, i requires 0 <= i < |s| => if 'A' <= s[i] <= 'Z' then s[i] - 'A' + 'a' else s[i])
  }

  /** The scheme url.Parse finds, scanning from index i; None when there is none. */
  function SchemeFrom(uri: string, i: nat): Option<string>
    requires i <= |uri|
    decreases |uri| - i
  {
    if i == |uri| then None
    else if IsLetter(uri[i]) then SchemeFrom(uri, i + 1)
    else if IsDigit(uri[i]) || uri[i] == '+' || uri[i] == '-' || uri[i] == '.' then
      if i == 0 then None else SchemeFrom(uri, i + 1)
    else if uri[i] == ':' && i > 0 then Some(ToLower(uri[..i]))
    else None
  }

  predicate LowerScheme(s: string) { s != [] && forall i | 0 <= i < |s| :: 'a' <= s[i] <= 'z' }

  lemma {:induction false} SchemeScans(scheme: string, rest: string, i: nat)
    requires LowerScheme(scheme) && i <= |scheme|
    ensures SchemeFrom(scheme + ":" + rest, i) == Some(scheme)
    decreases |scheme| - i
  {
    var uri := scheme + ":" + rest;
    if i < |scheme| {
      assert uri[i] == scheme[i];
      SchemeScans(scheme, rest, i + 1);
    } else {
      assert uri[i] == ':' && uri[..i] == scheme;
      assert ToLower(scheme) == scheme;
    }
  }

  lemma {:induction false} LastPartOf(prefix: string, hash: string)
    requires '/' !in hash
    ensures LastPart(prefix + "/" + hash) == hash
    decreases |prefix|
  {
    if prefix == [] {
      NoSlash(hash);
      assert prefix + "/" + hash == ['/'] + hash;
      assert Split(['/'] + hash, '/') == [""] + Split(hash, '/');
    } else {
      LastPartOf(prefix[1..], hash);
      var uri := prefix + "/" + hash;
      assert uri[1..] == prefix[1..] + "/" + hash;
      TwoParts(prefix[1..], hash);
    }
  }

  lemma {:induction false} NoSlash(s: string)
    requires '/' !in s
    ensures Split(s, '/') == [s]
  {
    if s != [] {
      NoSlash(s[1..]);
      assert [s[0]] + s[1..] == s;
    }
  }

  lemma {:induction false} TwoParts(prefix: string, hash: string)
    ensures |Split(prefix + "/" + hash, '/')| >= 2
  {
    var uri := prefix + "/" + hash;
    if prefix != [] {
      TwoParts(prefix[1..], hash);
      assert uri[1..] == prefix[1..] + "/" + hash;
    }
  }

  /** A printed locator is parsed back into its scheme and its hash. */
  lemma UriRoundTrip(scheme: string, hash: string)
    requires LowerScheme(scheme) && '/' !in hash
    ensures SchemeFrom(UriOf(scheme, hash), 0) == Some(scheme)
    ensures LastPart(UriOf(scheme, hash)) == hash
  {
    SchemeScans(scheme, "///" + hash, 0);
    assert UriOf(scheme, hash) == scheme + ":" + ("///" + hash);
    LastPartOf(scheme + "://", hash);
    assert UriOf(scheme, hash) == scheme + "://" + "/" + hash;
  }

  // ----- objects -----

  /** Path components below the storage root. */
  type ObjectPath = seq<string>
  type Objects = map<ObjectPath, Bytes>

  /** getPath: two levels of two-character shards. */
  function PathOf(hash: string): ObjectPath {
    if |hash| < 4 then [hash] else [hash[..2], hash[2..4], hash]
  }

  function ObjectKey(digest: Bytes -> Bytes, content: Bytes): ObjectPath {
    PathOf(Encode(digest(content)))
  }

  lemma ObjectKeyInjective(digest: Bytes -> Bytes, a: Bytes, b: Bytes)
    requires ObjectKey(digest, a) == ObjectKey(digest, b)
    ensures digest(a) == digest(b)
  {
    assert Last(ObjectKey(digest, a)) == Encode(digest(a));
    assert Last(ObjectKey(digest, b)) == Encode(digest(b));
    EncodeInjective(digest(a), digest(b));
  }

  /** Store: content already present under its hash is not written again. */
  function Stored(objects: Objects, digest: Bytes -> Bytes, content: Bytes): Objects {
    if ObjectKey(digest, content) in objects then objects
    else objects[ObjectKey(digest, content) := content]
  }

  /** RetrieveByURI with the local provider registered under SCHEME. */
  function Retrieved(objects: Objects, uri: string): Option<Bytes> {
    if SchemeFrom(uri, 0) != Some(SCHEME) || PathOf(LastPart(uri)) !in objects then None
    else Some(objects[PathOf(LastPart(uri))])
  }

  /** Every object lies under the hash of its own bytes. */
  ghost predicate Addressed(objects: Objects, digest: Bytes -> Bytes) {
    forall p | p in objects :: p == ObjectKey(digest, objects[p])
  }

  ghost predicate CollisionFree(digest: Bytes -> Bytes, contents: set<Bytes>) {
    forall a, b | a in contents && b in contents && digest(a) == digest(b) :: a == b
  }

  lemma StoreIsIdempotent(objects: Objects, digest: Bytes -> Bytes, content: Bytes)
    requires Addressed(objects, digest)
    ensures var objects' := Stored(objects, digest, content);
      && Addressed(objects', digest)
      && Stored(objects', digest, content) == objects'
      && objects.Items <= objects'.Items
      && ObjectKey(digest, content) in objects'
  {
  }

  /** Without collisions, the locator of stored bytes retrieves exactly these bytes. */
  lemma RetrieveStored(objects: Objects, digest: Bytes -> Bytes, content: Bytes, contents: set<Bytes>)
    requires Addressed(objects, digest) && ObjectKey(digest, content) in objects
    requires CollisionFree(digest, contents) && content in contents && objects.Values <= contents
    ensures Retrieved(objects, UriOf(SCHEME, Encode(digest(content)))) == Some(content)
  {
    var key := ObjectKey(digest, content);
    UriRoundTrip(SCHEME, Encode(digest(content)));
    assert objects[key] in objects.Values;
    ObjectKeyInjective(digest, content, objects[key]);
  }

  // ----- streams -----

  /** What the receive loop gets: the chunks, and whether the stream then broke off. */
  datatype Stream = Stream(chunks: seq<Bytes>, failed: bool)

  function Concat(chunks: seq<Bytes>): Bytes {
    if chunks == [] then [] else Concat(Front(chunks)) + Last(chunks)
  }

  class LocalStorage {
    var objects: Objects
    const digest: Bytes -> Bytes

    constructor (digest: Bytes -> Bytes)
      ensures objects == map[] && this.digest == digest
    {
      objects := map[];
      this.digest := digest;
    }

    /** Copies the reader into a temporary file, then installs it under the hash of what was read. */
    method Store(r: Stream) returns (hash: Option<string>)
      modifies this
      ensures r.failed ==> hash == None && objects == old(objects)
      ensures !r.failed ==> hash == Some(Encode(digest(Concat(r.chunks))))
      ensures !r.failed ==> objects == Stored(old(objects), digest, Concat(r.chunks))
    {
      var temp: Bytes := [];
      for n := 0 to |r.chunks|
        invariant temp == Concat(r.chunks[..n]) && objects == old(objects)
      {
        temp := temp + r.chunks[n];
        assert Front(r.chunks[..n + 1]) == r.chunks[..n];
      }
      assert r.chunks[..|r.chunks|] == r.chunks;
      if r.failed {
        return None;
      }
      var name := Encode(digest(temp));
      var path := PathOf(name);
      if path !in objects {
        objects := objects[path := temp];
      }
      hash := Some(name);
    }

    method Retrieve(hash: string) returns (content: Option<Bytes>)
      ensures content == if PathOf(hash) in objects then Some(objects[PathOf(hash)]) else None
    {
      content := if PathOf(hash) in objects then Some(objects[PathOf(hash)]) else None;
    }
  }

  class CASRegistry {
    var providers: map<string, LocalStorage>

    constructor ()
      ensures providers == map[]
    {
      providers := map[];
    }

    /** Local storage registers under its location type. */
    method Register(p: LocalStorage)
      modifies this
      ensures providers == old(providers)[SCHEME := p]
    {
      providers := providers[SCHEME := p];
    }

    method StoreInDefault(scheme: string, r: Stream) returns (uri: Option<string>)
      modifies providers.Values
      ensures providers == old(providers)
      ensures scheme !in providers ==> uri == None
      ensures scheme in providers && r.failed ==>
                uri == None && providers[scheme].objects == old(providers[scheme].objects)
      ensures scheme in providers && !r.failed ==>
                var p := providers[scheme];
                && uri == Some(UriOf(scheme, Encode(p.digest(Concat(r.chunks)))))
                && p.objects == Stored(old(p.objects), p.digest, Concat(r.chunks))
    {
      if scheme !in providers {
        return None;
      }
      assert providers[scheme] in providers.Values;
      var hash := providers[scheme].Store(r);
      uri := if hash.Some? then Some(UriOf(scheme, hash.value)) else None;
    }

    method RetrieveByURI(uri: string) returns (content: Option<Bytes>)
      ensures var scheme := SchemeFrom(uri, 0);
        content ==
          if scheme.None? || scheme.value !in providers then None
          else
            var objects, path := providers[scheme.value].objects, PathOf(LastPart(uri));
            if path in objects then Some(objects[path]) else None
    {
      var scheme := SchemeFrom(uri, 0);
      if scheme.None? || scheme.value !in providers {
        return None;
      }
      content := providers[scheme.value].Retrieve(LastPart(uri));
    }
  }
}
