/**
 * KS3 request signing: the canonical `x-kss-` header block, the canonical
 * resource, the string-to-sign and the `KSS access:signature` header value.
 * HMAC-SHA1 followed by base64 is a parameter `mac(secret, text)`.
 */
module Ks3Signature {
  import opened Wrappers
  import opened Ks3Text

  const KssPrefix: string := "x-kss-"

  /** The header keys that take part in the signature, after lowering. */
  predicate IsKssKey(k: string) {
    StartsWith(Lower(k), KssPrefix)
  }

  /**
   * The `ks3_headers` dict after the loop has seen all of `headers`: each
   * `x-kss-` header under its lowered key with its value stripped.
   */
  function CollectKss(headers: Dict): (r: Dict)
    ensures DistinctKeys(r)
    ensures forall x | x in r :: StartsWith(x.0, KssPrefix) && Lower(x.0) == x.0
  {
    if headers == [] then []
    else
      var acc := CollectKss(headers[..|headers| - 1]);
      var (k, v) := headers[|headers| - 1];
      if IsKssKey(k) then
        LowerIdempotent(k);
        Put(acc, Lower(k), Strip(v))
      else acc
  }

  /** Reference reading: the stripped value of the last header whose lowered key is `k`. */
  function LastValue(headers: Dict, k: string): Option<string> {
    if headers == [] then None
    else if Lower(headers[|headers| - 1].0) == k then Some(Strip(headers[|headers| - 1].1))
    else LastValue(headers[..|headers| - 1], k)
  }

  /** `sorted(ks3_headers.items())` rendered as `key:value\n` lines. */
  function RenderHeaders(entries: Dict): string {
    if entries == [] then ""
    else entries[0].0 + ":" + entries[0].1 + "\n" + RenderHeaders(entries[1..])
  }

  function CanonicalHeaders(headers: Dict): string {
    RenderHeaders(SortByKey(CollectKss(headers)))
  }

  /** Keys equal after lowering collapse into one entry, and the last value wins. */
  lemma {:induction false} CollectKssLastWins(headers: Dict, k: string)
    ensures Lookup(CollectKss(headers), k) == if StartsWith(k, KssPrefix) then LastValue(headers, k) else None
  {
    if headers != [] {
      CollectKssLastWins(headers[..|headers| - 1], k);
    }
  }

  /** The collected dict is empty exactly when no header key lowers to an `x-kss-` key. */
  lemma {:induction false} CollectKssEmptyIff(headers: Dict)
    ensures CollectKss(headers) == [] <==> forall x | x in headers :: !IsKssKey(x.0)
  {
    if headers != [] {
      var init := headers[..|headers| - 1];
      CollectKssEmptyIff(init);
      assert forall x :: x in headers <==> x in init || x == headers[|headers| - 1];
    }
  }

  lemma RenderHeadersEmptyIff(entries: Dict)
    ensures RenderHeaders(entries) == "" <==> entries == []
  {
  }

  /** `canonicalize_ks3_headers` is "" exactly when no key lowers to an `x-kss-` key. */
  lemma CanonicalHeadersEmptyIff(headers: Dict)
    ensures CanonicalHeaders(headers) == "" <==> forall x | x in headers :: !IsKssKey(x.0)
  {
    CollectKssEmptyIff(headers);
    RenderHeadersEmptyIff(SortByKey(CollectKss(headers)));
  }

  /**
   * The canonical block renders, as `key:value\n` lines in strictly
   * ascending key order, exactly the lowered `x-kss-` keys of `headers`, each
   * with the stripped value of its last occurrence.
   */
  lemma CanonicalHeadersEntries(headers: Dict)
    ensures var e := SortByKey(CollectKss(headers));
      && CanonicalHeaders(headers) == RenderHeaders(e)
      && SortedByKey(e)
      && (forall x | x in e :: StartsWith(x.0, KssPrefix) && Lower(x.0) == x.0 && LastValue(headers, x.0) == Some(x.1))
      && (forall k | StartsWith(k, KssPrefix) && LastValue(headers, k).Some? :: (k, LastValue(headers, k).value) in e)
  {
    var c := CollectKss(headers);
    var e := SortByKey(c);
    SortByKeySorts(c);
    forall x | x in e
      ensures LastValue(headers, x.0) == Some(x.1)
    {
      LookupIffMember(c, x.0, x.1);
      CollectKssLastWins(headers, x.0);
    }
    forall k | StartsWith(k, KssPrefix) && LastValue(headers, k).Some?
      ensures (k, LastValue(headers, k).value) in e
    {
      CollectKssLastWins(headers, k);
      LookupIffMember(c, k, LastValue(headers, k).value);
    }
  }

  /** `canonicalize_ks3_headers`: the collecting loop, then sort and render. */
  method CanonicalizeKs3Headers(headers: Dict) returns (canonical: string)
    ensures canonical == CanonicalHeaders(headers)
    ensures canonical == "" <==> forall x | x in headers :: !IsKssKey(x.0)
  {
    var kss: Dict := [];
    for i := 0 to |headers|
      invariant kss == CollectKss(headers[..i])
    {
      assert headers[..i + 1][..i] == headers[..i];
      var (key, value) := headers[i];
      var lowerKey := Lower(key);
      if StartsWith(lowerKey, KssPrefix) {
        kss := Put(kss, lowerKey, Strip(value));
      }
    }
    assert headers[..|headers|] == headers;
    CanonicalHeadersEmptyIff(headers);
    if kss == [] {
      return "";
    }
    canonical := RenderHeaders(SortByKey(kss));
  }

  // ---- canonical resource ----

  /** Sub-resource query parameters that are part of the signature. */
  const SpecialParams: seq<string> :=
    ["uploadId", "partNumber", "uploads", "delete", "cors", "logging", "website", "lifecycle", "notification"]

  /** `{k: v for k, v in query_params.items() if k in special_params}`. */
  function IncludedParams(query: Dict): (r: Dict)
    ensures forall x :: x in r <==> x in query && x.0 in SpecialParams
    ensures DistinctKeys(query) ==> DistinctKeys(r)
  {
    if query == [] then []
    else
      assert query == [query[0]] + query[1..];
      var rest := IncludedParams(query[1..]);
      if query[0].0 in SpecialParams then [query[0]] + rest else rest
  }

  /** `k=v`, or the bare `k` when the value is empty. */
  function RenderParam(p: (string, string)): string {
    if p.1 == "" then p.0 else p.0 + "=" + p.1
  }

  /** `'&'.join(...)`. */
  function JoinParams(ps: Dict): string {
    if ps == [] then ""
    else if |ps| == 1 then RenderParam(ps[0])
    else RenderParam(ps[0]) + "&" + JoinParams(ps[1..])
  }

  /** `"/" + bucket`, then `"/" + object_key` when the key is non-empty. */
  function ResourcePath(bucket: string, objectKey: string): string {
    "/" + bucket + (if objectKey == "" then "" else "/" + objectKey)
  }

  /** `canonicalize_resource`. */
  function CanonicalResource(bucket: string, objectKey: string, query: Dict): string {
    var included := IncludedParams(query);
    if included == [] then ResourcePath(bucket, objectKey)
    else ResourcePath(bucket, objectKey) + "?" + JoinParams(SortByKey(included))
  }

  /**
   * The resource starts with `"/" + bucket`, and `"/" + object_key` follows
   * it exactly when the key is non-empty; otherwise the resource is the bare
   * bucket path or that path with a query suffix.
   */
  lemma CanonicalResourcePath(bucket: string, objectKey: string, query: Dict)
    ensures var r := CanonicalResource(bucket, objectKey, query);
      && StartsWith(r, "/" + bucket)
      && (objectKey != "" ==> StartsWith(r, "/" + bucket + "/" + objectKey))
      && (objectKey == "" ==> r == "/" + bucket || StartsWith(r, "/" + bucket + "?"))
  {
    var path := ResourcePath(bucket, objectKey);
    var r := CanonicalResource(bucket, objectKey, query);
    assert r[..|path|] == path;
    assert path[..|"/" + bucket|] == "/" + bucket;
    if objectKey == "" && r != path {
      assert r[..|path| + 1] == path + "?";
    }
  }

  /**
   * A `?` suffix is added exactly when some query parameter is a special
   * one, and it joins exactly the special parameters in strictly ascending
   * key order.
   */
  lemma CanonicalResourceQuery(bucket: string, objectKey: string, query: Dict)
    requires DistinctKeys(query)
    ensures var r := CanonicalResource(bucket, objectKey, query);
      var path := ResourcePath(bucket, objectKey);
      var ps := SortByKey(IncludedParams(query));
      && ((forall x | x in query :: x.0 !in SpecialParams) <==> r == path)
      && (r != path ==>
            (r == path + "?" + JoinParams(ps) && ps != [] && SortedByKey(ps)
             && forall x :: x in ps <==> x in query && x.0 in SpecialParams))
  {
    var included := IncludedParams(query);
    if included != [] {
      assert included[0] in query && included[0].0 in SpecialParams;
      SortByKeySorts(included);
    }
  }

  // ---- string to sign and authorization ----

  /** The text that is signed. */
  function StringToSign(
    httpMethod: string, contentMd5: string, contentType: string, date: string,
    canonicalHeaders: string, canonicalResource: string): string
  {
    httpMethod + "\n" + contentMd5 + "\n" + contentType + "\n" + date + "\n" + canonicalHeaders + canonicalResource
  }

  /** The `Authorization` value: `KSS access:signature`. */
  function Authorization(accessKey: string, signature: string): string {
    "KSS " + accessKey + ":" + signature
  }

  /** `generate_signature`, with HMAC-SHA1 and base64 as `mac`. */
  function GenerateSignature(
    accessKey: string, secretKey: string, httpMethod: string, contentMd5: string, contentType: string,
    date: string, canonicalHeaders: string, canonicalResource: string,
    mac: (string, string) -> string): string
  {
    Authorization(accessKey, mac(secretKey,
      StringToSign(httpMethod, contentMd5, contentType, date, canonicalHeaders, canonicalResource)))
  }

  /** The text before the first `sep` and the text after it. */
  function SplitAt(s: string, sep: char): Option<(string, string)> {
    if s == [] then None
    else if s[0] == sep then Some(([], s[1..]))
    else match SplitAt(s[1..], sep)
      case None => None
      case Some(parts) => Some(([s[0]] + parts.0, parts.1))
  }

  lemma {:induction false} SplitAtJoin(head: string, sep: char, tail: string)
    requires sep !in head
    ensures SplitAt(head + [sep] + tail, sep) == Some((head, tail))
  {
    if head != [] {
      SplitAtJoin(head[1..], sep, tail);
      assert (head + [sep] + tail)[1..] == head[1..] + [sep] + tail;
      assert [head[0]] + head[1..] == head;
    }
  }

  /** Reads the four header fields and the canonical tail back out of a string-to-sign. */
  function ParseStringToSign(s: string): Option<(string, string, string, string, string)> {
    match SplitAt(s, '\n')
    case None => None
    case Some(p1) =>
      match SplitAt(p1.1, '\n')
      case None => None
      case Some(p2) =>
        match SplitAt(p2.1, '\n')
        case None => None
        case Some(p3) =>
          match SplitAt(p3.1, '\n')
          case None => None
          case Some(p4) => Some((p1.0, p2.0, p3.0, p4.0, p4.1))
  }

  /**
   * For newline-free method, MD5, content type and date, the string-to-sign
   * gives back each of its fields, in order, and the canonical headers
   * followed by the canonical resource.
   */
  lemma StringToSignRoundTrip(
    httpMethod: string, contentMd5: string, contentType: string, date: string,
    canonicalHeaders: string, canonicalResource: string)
    requires '\n' !in httpMethod && '\n' !in contentMd5 && '\n' !in contentType && '\n' !in date
    ensures ParseStringToSign(StringToSign(httpMethod, contentMd5, contentType, date, canonicalHeaders, canonicalResource))
      == Some((httpMethod, contentMd5, contentType, date, canonicalHeaders + canonicalResource))
  {
    var tail := canonicalHeaders + canonicalResource;
    var t4 := date + "\n" + tail;
    var t3 := contentType + "\n" + t4;
    var t2 := contentMd5 + "\n" + t3;
    assert StringToSign(httpMethod, contentMd5, contentType, date, canonicalHeaders, canonicalResource)
      == httpMethod + ['\n'] + t2;
    SplitAtJoin(httpMethod, '\n', t2);
    SplitAtJoin(contentMd5, '\n', t3);
    SplitAtJoin(contentType, '\n', t4);
    SplitAtJoin(date, '\n', tail);
  }

  /** Reads the access key and signature back out of an `Authorization` value. */
  function ParseAuthorization(s: string): Option<(string, string)> {
    if StartsWith(s, "KSS ") then SplitAt(s[4..], ':') else None
  }

  /** For an access key without `:`, the header value gives back the key and the signature. */
  lemma AuthorizationRoundTrip(accessKey: string, signature: string)
    requires ':' !in accessKey
    ensures ParseAuthorization(Authorization(accessKey, signature)) == Some((accessKey, signature))
  {
    var s := Authorization(accessKey, signature);
    assert s[4..] == accessKey + [':'] + signature;
    SplitAtJoin(accessKey, ':', signature);
  }
}
