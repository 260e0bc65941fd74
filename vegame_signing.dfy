/**
 * The request signing shared by the VeGame STS token manager and the VeGame
 * API client: an AWS Signature Version 4-style scheme with HMAC-SHA256 over a
 * canonical request, a credential scope `YYYYMMDD/cn-north-1/veGame/request`
 * and a four-step derived signing key. Digests are the opaque functions of
 * `Externals`; everything else is string building, stated exactly.
 */
module VeGameSigning {
  import opened Php
  import opened PhpSort
  import opened Kernel
  import opened Transport

  const Host := "open.volcengineapi.com"
  const ContentType := "application/x-www-form-urlencoded"
  const SignedHeaders := "host;x-date;x-content-sha256;content-type"
  const Region := "cn-north-1"
  const Service := "veGame"

  // ---------------------------------------------------------------------------
  // The canonical query string (`buildParams`)
  // ---------------------------------------------------------------------------

  function EntryKey(e: (string, QueryValue)): string {
    e.0
  }

  /**
   * `ksort($params)` for keys that are neither decimal integers nor numeric
   * strings: such keys are compared as strings, byte by byte.
   */
  function KSort(ps: Params): Params {
    SortBy(ps, EntryKey)
  }

  /** A query string piece: non-empty and free of `&`. */
  predicate WellFormedPair(p: string) {
    |p| > 0 && '&' !in p
  }

  /** `urlencode($key) . "=" . urlencode($value)`. */
  function Pair(k: string, v: string): (r: string)
    ensures WellFormedPair(r)
  {
    UrlEncodeHasNoSeparators(k);
    UrlEncodeHasNoSeparators(v);
    UrlEncode(k) + "=" + UrlEncode(v)
  }

  /** One pair per element of an array value, in the array's order. */
  function ValuePairs(k: string, vs: seq<string>): seq<string> {
    if |vs| == 0 then [] else ValuePairs(k, vs[..|vs| - 1]) + [Pair(k, vs[|vs| - 1])]
  }

  function EntryPairs(e: (string, QueryValue)): seq<string> {
    match e.1
    case One(v) => [Pair(e.0, v)]
    case Many(vs) => ValuePairs(e.0, vs)
  }

  /** The pairs of all entries, entry by entry. */
  function Pairs(ps: Params): seq<string> {
    if |ps| == 0 then [] else Pairs(ps[..|ps| - 1]) + EntryPairs(ps[|ps| - 1])
  }

  /** `implode("&", $parts)`. */
  function Join(parts: seq<string>): string {
    if |parts| == 0 then ""
    else if |parts| == 1 then parts[0]
    else Join(parts[..|parts| - 1]) + "&" + parts[|parts| - 1]
  }

  /** The canonical query string of `params`. */
  function CanonicalQuery(ps: Params): string {
    Join(Pairs(KSort(ps)))
  }

  /** What the loop of `buildParams` accumulates: every pair followed by `&`. */
  function Terminated(parts: seq<string>): string {
    if |parts| == 0 then "" else Terminated(parts[..|parts| - 1]) + parts[|parts| - 1] + "&"
  }

  /** `rtrim($s, $c)` for one character. */
  function RTrim(s: string, c: char): (r: string)
    ensures |r| <= |s| && r == s[..|r|]
    ensures |r| == 0 || r[|r| - 1] != c
  {
    if |s| > 0 && s[|s| - 1] == c then RTrim(s[..|s| - 1], c) else s
  }

  lemma {:induction false} ValuePairsWellFormed(k: string, vs: seq<string>)
    ensures forall i :: 0 <= i < |ValuePairs(k, vs)| ==> WellFormedPair(ValuePairs(k, vs)[i])
  {
    if |vs| > 0 {
      ValuePairsWellFormed(k, vs[..|vs| - 1]);
    }
  }

  lemma {:induction false} PairsWellFormed(ps: Params)
    ensures forall i :: 0 <= i < |Pairs(ps)| ==> WellFormedPair(Pairs(ps)[i])
  {
    if |ps| > 0 {
      PairsWellFormed(ps[..|ps| - 1]);
      var e := ps[|ps| - 1];
      if e.1.Many? {
        ValuePairsWellFormed(e.0, e.1.vs);
      }
    }
  }

  lemma {:induction false} TerminatedAppend(a: seq<string>, b: seq<string>)
    ensures Terminated(a + b) == Terminated(a) + Terminated(b)
    decreases |b|
  {
    if |b| > 0 {
      assert (a + b)[..|a + b| - 1] == a + b[..|b| - 1];
      TerminatedAppend(a, b[..|b| - 1]);
    } else {
      assert a + b == a;
    }
  }

  /** One more pair adds that pair and its `&`. */
  lemma TerminatedSnoc(parts: seq<string>, p: string)
    ensures Terminated(parts + [p]) == Terminated(parts) + (p + "&")
  {
    assert (parts + [p])[..|parts|] == parts;
  }

  lemma TerminatedSingle(p: string)
    ensures Terminated([p]) == p + "&"
  {
    assert [p][..0] == [];
  }

  lemma {:induction false} TerminatedIsJoinWithAmp(parts: seq<string>)
    requires |parts| > 0
    ensures Terminated(parts) == Join(parts) + "&"
  {
    if |parts| > 1 {
      TerminatedIsJoinWithAmp(parts[..|parts| - 1]);
    }
  }

  /** Trimming removes exactly the final `&`: no pair ends with one. */
  lemma TrimTerminated(parts: seq<string>)
    requires forall i :: 0 <= i < |parts| ==> WellFormedPair(parts[i])
    ensures RTrim(Terminated(parts), '&') == Join(parts)
  {
    if |parts| > 0 {
      TerminatedIsJoinWithAmp(parts);
      var j := Join(parts);
      JoinEndsWithLast(parts);
      assert j[|j| - 1] != '&';
      assert (j + "&")[..|j + "&"| - 1] == j;
      assert RTrim(j, '&') == j;
    }
  }

  /** A join of well-formed pairs ends with its last pair, so not with `&`. */
  lemma JoinEndsWithLast(parts: seq<string>)
    requires |parts| > 0 && WellFormedPair(parts[|parts| - 1])
    ensures |Join(parts)| > 0 && Join(parts)[|Join(parts)| - 1] == parts[|parts| - 1][|parts[|parts| - 1]| - 1]
  {
  }

  /**
   * `buildParams`: sorts the entries by key, appends `urlencode(k)=urlencode(v)&`
   * for each value (each element of an array value, in order) and trims the
   * trailing `&`.
   */
  method BuildParams(params: Params) returns (query: string)
    ensures query == CanonicalQuery(params)
  {
    var sorted := KSort(params);
    var acc := "";
    var i := 0;
    while i < |sorted|
      invariant 0 <= i <= |sorted|
      invariant acc == Terminated(Pairs(sorted[..i]))
    {
      assert sorted[..i + 1][..i] == sorted[..i];
      TerminatedAppend(Pairs(sorted[..i]), EntryPairs(sorted[i]));
      acc := AppendEntry(acc, sorted[i]);
      i := i + 1;
    }
    assert sorted[..i] == sorted;
    PairsWellFormed(sorted);
    TrimTerminated(Pairs(sorted));
    query := TrimAmpersands(acc);
  }

  /** One turn of the outer loop of `buildParams`. */
  method AppendEntry(acc: string, e: (string, QueryValue)) returns (r: string)
    ensures r == acc + Terminated(EntryPairs(e))
  {
    match e.1 {
      case One(v) =>
        TerminatedSingle(Pair(e.0, v));
        r := acc + Pair(e.0, v) + "&";
      case Many(vs) =>
        r := AppendValues(acc, e.0, vs);
    }
  }

  /** The inner loop of `buildParams`: one pair per element of an array value. */
  method AppendValues(acc: string, k: string, vs: seq<string>) returns (r: string)
    ensures r == acc + Terminated(ValuePairs(k, vs))
  {
    r := acc;
    var j := 0;
    while j < |vs|
      invariant 0 <= j <= |vs|
      invariant r == acc + Terminated(ValuePairs(k, vs[..j]))
    {
      AppendValuesStep(acc, k, vs, j);
      r := r + Pair(k, vs[j]) + "&";
      j := j + 1;
    }
    assert vs[..j] == vs;
  }

  lemma AppendValuesStep(acc: string, k: string, vs: seq<string>, j: nat)
    requires j < |vs|
    ensures acc + Terminated(ValuePairs(k, vs[..j])) + Pair(k, vs[j]) + "&" == acc + Terminated(ValuePairs(k, vs[..j + 1]))
  {
    var p := Pair(k, vs[j]);
    var before := ValuePairs(k, vs[..j]);
    ValuePairsStep(k, vs, j);
    TerminatedSnoc(before, p);
    SeqAssoc(acc, Terminated(before), p + "&");
  }

  lemma SeqAssoc(a: string, b: string, c: string)
    ensures a + b + c == a + (b + c)
  {
  }

  lemma ValuePairsStep(k: string, vs: seq<string>, j: nat)
    requires j < |vs|
    ensures ValuePairs(k, vs[..j + 1]) == ValuePairs(k, vs[..j]) + [Pair(k, vs[j])]
  {
    assert vs[..j + 1][..j] == vs[..j];
  }

  /** `rtrim($query, "&")`. */
  method TrimAmpersands(s: string) returns (r: string)
    ensures r == RTrim(s, '&')
  {
    r := s;
    while |r| > 0 && r[|r| - 1] == '&'
      invariant RTrim(r, '&') == RTrim(s, '&')
    {
      r := r[..|r| - 1];
    }
  }

  /**
   * The canonical query is made of exactly the pairs of the key-sorted
   * entries, never ends with `&`, and is empty exactly when there is no value.
   */
  lemma CanonicalQueryShape(ps: Params)
    ensures SortedBy(KSort(ps), EntryKey) && multiset(KSort(ps)) == multiset(ps)
    ensures CanonicalQuery(ps) == "" <==> Pairs(KSort(ps)) == []
    ensures |CanonicalQuery(ps)| > 0 ==> CanonicalQuery(ps)[|CanonicalQuery(ps)| - 1] != '&'
  {
    SortByCorrect(ps, EntryKey);
    var parts := Pairs(KSort(ps));
    PairsWellFormed(KSort(ps));
    TrimTerminated(parts);
    if |parts| > 0 {
      var last := parts[|parts| - 1];
      assert WellFormedPair(last);
      assert |Join(parts)| >= |last|;
    }
  }

  /** PHP array keys are unique. */
  predicate DistinctKeys(ps: Params) {
    forall i, j :: 0 <= i < j < |ps| ==> ps[i].0 != ps[j].0
  }

  /** The order in which the caller lists the entries never shows in the canonical query. */
  lemma CanonicalQueryIgnoresOrder(ps: Params, qs: Params)
    requires DistinctKeys(ps)
    requires multiset(ps) == multiset(qs)
    ensures CanonicalQuery(ps) == CanonicalQuery(qs)
  {
    forall x, y | x in multiset(ps) && y in multiset(ps) && EntryKey(x) == EntryKey(y)
      ensures x == y
    {
      var i :| 0 <= i < |ps| && ps[i] == x;
      var j :| 0 <= j < |ps| && ps[j] == y;
      assert !(i < j) && !(j < i);
    }
    SortByIgnoresOrder(ps, qs, EntryKey);
  }

  // ---------------------------------------------------------------------------
  // The signature (`authorization`)
  // ---------------------------------------------------------------------------

  /** The `X-Content-Sha256` value: `hash("sha256", json_encode($body))`. */
  function ContentHash(ext: Externals, body: Json): string {
    ext.sha256(ext.jsonEncode(body))
  }

  /** `substr($date, 0, 8)`: the `YYYYMMDD` part of `YYYYMMDDTHHMMSSZ`. */
  function ShortDate(date: string): string {
    if |date| <= 8 then date else date[..8]
  }

  /** The canonical request of a request with this method and path; `authorization()` always writes `GET /`. */
  function CanonicalRequest(verb: string, path: string, query: string, date: string, contentHash: string): string {
    verb + "\n" + path + "\n" + query + "\n"
    + "host:" + Host + "\n"
    + "x-date:" + date + "\n"
    + "x-content-sha256:" + contentHash + "\n"
    + "content-type:" + ContentType + "\n\n"
    + SignedHeaders + "\n" + contentHash
  }

  function CredentialScope(date: string): string {
    ShortDate(date) + "/" + Region + "/" + Service + "/request"
  }

  function StringToSign(ext: Externals, canonicalRequest: string, date: string): string {
    "HMAC-SHA256\n" + date + "\n" + CredentialScope(date) + "\n" + ext.sha256(canonicalRequest)
  }

  /** The derived key: each step is keyed with the raw bytes of the previous hex digest. */
  function SigningKey(ext: Externals, sk: string, date: string): string {
    var kDate := ext.hmacSha256(sk, ShortDate(date));
    var kRegion := ext.hmacSha256(ext.hex2bin(kDate), Region);
    var kService := ext.hmacSha256(ext.hex2bin(kRegion), Service);
    ext.hmacSha256(ext.hex2bin(kService), "request")
  }

  function Signature(ext: Externals, sk: string, verb: string, path: string, query: Params, date: string, body: Json): string {
    var canonical := CanonicalRequest(verb, path, CanonicalQuery(query), date, ContentHash(ext, body));
    ext.hmacSha256(ext.hex2bin(SigningKey(ext, sk, date)), StringToSign(ext, canonical, date))
  }

  /** The `Authorization` header value that signs a request with this method, path, query, date and body. */
  function RequestAuthorization(ext: Externals, ak: string, sk: string, verb: string, path: string,
                                query: Params, date: string, body: Json): string {
    "HMAC-SHA256 Credential=" + ak + "/" + CredentialScope(date)
    + ", SignedHeaders=" + SignedHeaders
    + ", Signature=" + Signature(ext, sk, verb, path, query, date, body)
  }

  /** `authorization($body)`: the header for `GET /`, whatever request it is later attached to. */
  function AuthorizationHeader(ext: Externals, ak: string, sk: string, query: Params, date: string, body: Json): string {
    RequestAuthorization(ext, ak, sk, "GET", "/", query, date, body)
  }

  /**
   * The layout spelled out for a full `YYYYMMDDTHHMMSSZ` date: the scope, the
   * key chain and the header.
   */
  lemma SignatureLayout(ext: Externals, ak: string, sk: string, query: Params, date: string, body: Json)
    requires |date| >= 8
    ensures CredentialScope(date) == date[..8] + "/cn-north-1/veGame/request"
    ensures SigningKey(ext, sk, date)
         == ext.hmacSha256(ext.hex2bin(ext.hmacSha256(ext.hex2bin(ext.hmacSha256(ext.hex2bin(
              ext.hmacSha256(sk, date[..8])), "cn-north-1")), "veGame")), "request")
    ensures AuthorizationHeader(ext, ak, sk, query, date, body)
         == "HMAC-SHA256 Credential=" + ak + "/" + (date[..8] + "/cn-north-1/veGame/request")
            + ", SignedHeaders=" + "host;x-date;x-content-sha256;content-type"
            + ", Signature=" + Signature(ext, sk, "GET", "/", query, date, body)
  {
    assert ShortDate(date) == date[..8];
    assert "/" + Region + "/" + Service + "/request" == "/cn-north-1/veGame/request";
  }

  /** The signing key is per day: two dates of the same day derive the same key. */
  lemma SigningKeyIsPerDay(ext: Externals, sk: string, d1: string, d2: string)
    requires |d1| >= 8 && |d2| >= 8 && d1[..8] == d2[..8]
    ensures SigningKey(ext, sk, d1) == SigningKey(ext, sk, d2)
    ensures CredentialScope(d1) == CredentialScope(d2)
  {
    assert ShortDate(d1) == d1[..8] && ShortDate(d2) == d2[..8];
  }

  /** Listing the query entries in another order gives the same signature. */
  lemma AuthorizationIgnoresQueryOrder(ext: Externals, ak: string, sk: string, verb: string, path: string,
                                       ps: Params, qs: Params, date: string, body: Json)
    requires DistinctKeys(ps)
    requires multiset(ps) == multiset(qs)
    ensures RequestAuthorization(ext, ak, sk, verb, path, ps, date, body)
         == RequestAuthorization(ext, ak, sk, verb, path, qs, date, body)
  {
    CanonicalQueryIgnoresOrder(ps, qs);
  }

  /**
   * The receiver's check. It rebuilds the canonical request from what it
   * receives: the method, the path, the query, the JSON body and the `Host`,
   * `X-Date`, `X-Content-Sha256` and `Content-Type` headers. The scheme signs
   * the fixed `Host` and `Content-Type` values, so those headers must hold
   * exactly them; the body hash must be that of the body, and `Authorization`
   * the header for this method, path, query, date and body under the key pair.
   */
  predicate SignedBy(ext: Externals, ak: string, sk: string, req: Request) {
    && Lookup(req.headers, "Host") == Some(One(Host))
    && Lookup(req.headers, "Content-Type") == Some(One(ContentType))
    && match (Lookup(req.headers, "X-Date"), Lookup(req.headers, "X-Content-Sha256"), Lookup(req.headers, "Authorization"))
       case (Some(One(date)), Some(One(hash)), Some(One(auth))) =>
         hash == ContentHash(ext, req.json)
         && auth == RequestAuthorization(ext, ak, sk, req.verb, req.url, req.query, date, req.json)
       case _ => false
  }

  /** A request whose headers hold the fixed values, its date, its body hash and the matching header is signed. */
  lemma SignedByIntro(ext: Externals, ak: string, sk: string, req: Request, date: string)
    requires Lookup(req.headers, "Host") == Some(One(Host))
    requires Lookup(req.headers, "Content-Type") == Some(One(ContentType))
    requires Lookup(req.headers, "X-Date") == Some(One(date))
    requires Lookup(req.headers, "X-Content-Sha256") == Some(One(ContentHash(ext, req.json)))
    requires Lookup(req.headers, "Authorization")
          == Some(One(RequestAuthorization(ext, ak, sk, req.verb, req.url, req.query, date, req.json)))
    ensures SignedBy(ext, ak, sk, req)
  {
  }

  /** The STS headers, in the order `getHeaders` lists them, are found by name. */
  lemma HeaderLayoutLookups(host: QueryValue, contentType: QueryValue, date: QueryValue, hash: QueryValue, auth: QueryValue)
    ensures var hs := [("Host", host), ("Content-Type", contentType), ("X-Date", date), ("X-Content-Sha256", hash), ("Authorization", auth)];
      && Lookup(hs, "Host") == Some(host)
      && Lookup(hs, "Content-Type") == Some(contentType)
      && Lookup(hs, "X-Date") == Some(date)
      && Lookup(hs, "X-Content-Sha256") == Some(hash)
      && Lookup(hs, "Authorization") == Some(auth)
  {
    var hs := [("Host", host), ("Content-Type", contentType), ("X-Date", date), ("X-Content-Sha256", hash), ("Authorization", auth)];
    LookupAt(hs, 0, "Host");
    LookupAt(hs, 1, "Content-Type");
    LookupAt(hs, 2, "X-Date");
    LookupAt(hs, 3, "X-Content-Sha256");
    LookupAt(hs, 4, "Authorization");
  }
}
