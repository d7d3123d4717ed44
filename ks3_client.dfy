/**
 * The signed request headers of the KS3 client: the date comes in as a
 * parameter and the MAC is the same `mac(secret, text)` the signer takes.
 */
module Ks3Client {
  import opened Wrappers
  import opened Ks3Text
  import opened Ks3Signature

  /** The client's credentials and bucket location (the HTTP session is not modelled). */
  datatype Client = Client(accessKey: string, secretKey: string, endpoint: string, bucket: string)

  /** The virtual-host name, `bucket.endpoint`. */
  function Host(client: Client): string {
    client.bucket + "." + client.endpoint
  }

  /** The keys `_build_headers` writes itself. */
  const OwnKeys: set<string> := {"Date", "Host", "Content-Type", "Content-MD5", "Authorization"}

  /** `d.update(e)`: each item of `e` assigned in turn. */
  function PutAll(d: Dict, e: Dict): (r: Dict)
    ensures DistinctKeys(d) ==> DistinctKeys(r)
  {
    if e == [] then d
    else Put(PutAll(d, e[..|e| - 1]), e[|e| - 1].0, e[|e| - 1].1)
  }

  /** After `d.update(e)` a key reads from `e` when `e` has it and from `d` otherwise. */
  lemma {:induction false} PutAllLookup(d: Dict, e: Dict, k: string)
    requires DistinctKeys(e)
    ensures Lookup(PutAll(d, e), k) == if Lookup(e, k).Some? then Lookup(e, k) else Lookup(d, k)
  {
    if e != [] {
      var init := e[..|e| - 1];
      PutAllLookup(d, init, k);
      var last := e[|e| - 1];
      if last.0 == k {
        assert forall i :: 0 <= i < |init| ==> init[i].0 != k;
        assert IndexOf(e, k) == Some(|e| - 1);
      } else {
        PrefixIndex(e, |e| - 1, k);
      }
    }
  }

  /** Headers that differ only in entries outside `x-kss-` give the same collected dict. */
  lemma {:induction false} CollectKssIgnoresOthers(h: Dict, g: Dict)
    requires |h| == |g|
    requires forall i :: 0 <= i < |h| ==> h[i] == g[i] || (!IsKssKey(h[i].0) && !IsKssKey(g[i].0))
    ensures CollectKss(h) == CollectKss(g)
  {
    if h != [] {
      CollectKssIgnoresOthers(h[..|h| - 1], g[..|g| - 1]);
    }
  }

  /** Assigning a header outside `x-kss-` leaves the canonical block as it was. */
  lemma PutOtherKeepsCanonical(h: Dict, k: string, v: string)
    requires !IsKssKey(k)
    ensures CanonicalHeaders(Put(h, k, v)) == CanonicalHeaders(h)
  {
    match IndexOf(h, k)
    case Some(i) =>
      CollectKssIgnoresOthers(Put(h, k, v), h);
    case None =>
      assert Put(h, k, v)[..|h|] == h;
  }

  /** The headers before the extras: Date, Host, and the content headers that are non-empty. */
  method BaseHeaders(client: Client, contentType: string, contentMd5: string, date: string)
    returns (headers: Dict)
    ensures DistinctKeys(headers)
    ensures Lookup(headers, "Date") == Some(date) && Lookup(headers, "Host") == Some(Host(client))
    ensures Lookup(headers, "Content-Type") == if contentType == "" then None else Some(contentType)
    ensures Lookup(headers, "Content-MD5") == if contentMd5 == "" then None else Some(contentMd5)
    ensures forall k | k !in OwnKeys :: Lookup(headers, k) == None
  {
    headers := [("Date", date), ("Host", Host(client))];
    assert DistinctKeys(headers);
    assert headers[1..] == [("Host", Host(client))];
    assert IndexOf(headers, "Host") == Some(1);
    if contentType != "" {
      headers := Put(headers, "Content-Type", contentType);
    }
    if contentMd5 != "" {
      headers := Put(headers, "Content-MD5", contentMd5);
    }
  }

  lemma AuthorizationIsNotKss()
    ensures !IsKssKey("Authorization")
  {
    assert Lower("Authorization")[0] == 'a';
  }

  /** `headers.update(extra)`, one assignment per item. */
  method Update(headers: Dict, extra: Dict) returns (updated: Dict)
    ensures updated == PutAll(headers, extra)
  {
    updated := headers;
    for i := 0 to |extra|
      invariant updated == PutAll(headers, extra[..i])
    {
      assert extra[..i + 1][..i] == extra[..i];
      updated := Put(updated, extra[i].0, extra[i].1);
    }
    assert extra[..|extra|] == extra;
  }

  /**
   * `_build_headers`: Date and Host always, Content-Type and Content-MD5 when
   * given, then the extra headers over them, then the Authorization value,
   * which signs the `x-kss-` headers the request actually carries.
   */
  method BuildHeaders(
    client: Client, httpMethod: string, objectKey: string, contentType: string, contentMd5: string,
    extra: Dict, query: Dict, date: string, mac: (string, string) -> string)
    returns (headers: Dict)
    requires DistinctKeys(extra)
    ensures DistinctKeys(headers)
    ensures Lookup(headers, "Authorization") == Some(GenerateSignature(
      client.accessKey, client.secretKey, httpMethod, contentMd5, contentType, date,
      CanonicalHeaders(headers), CanonicalResource(client.bucket, objectKey, query), mac))
    ensures Lookup(headers, "Date").Some? && Lookup(headers, "Host").Some?
    ensures Lookup(extra, "Date").None? ==> Lookup(headers, "Date") == Some(date)
    ensures Lookup(extra, "Host").None? ==> Lookup(headers, "Host") == Some(Host(client))
    ensures Lookup(extra, "Content-Type").None? ==>
      Lookup(headers, "Content-Type") == if contentType == "" then None else Some(contentType)
    ensures Lookup(extra, "Content-MD5").None? ==>
      Lookup(headers, "Content-MD5") == if contentMd5 == "" then None else Some(contentMd5)
    ensures forall k | k != "Authorization" && Lookup(extra, k).Some? :: Lookup(headers, k) == Lookup(extra, k)
    ensures forall k | k !in OwnKeys :: Lookup(headers, k) == Lookup(extra, k)
  {
    headers := BaseHeaders(client, contentType, contentMd5, date);
    ghost var base := headers;

    headers := Update(headers, extra);
    forall k
      ensures Lookup(headers, k) == if Lookup(extra, k).Some? then Lookup(extra, k) else Lookup(base, k)
    {
      PutAllLookup(base, extra, k);
    }

    var canonicalHeaders := CanonicalizeKs3Headers(headers);
    var canonicalResource := CanonicalResource(client.bucket, objectKey, query);
    var authorization := GenerateSignature(
      client.accessKey, client.secretKey, httpMethod, contentMd5, contentType, date,
      canonicalHeaders, canonicalResource, mac);
    AuthorizationIsNotKss();
    PutOtherKeepsCanonical(headers, "Authorization", authorization);
    headers := Put(headers, "Authorization", authorization);
  }
}
