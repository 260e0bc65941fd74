/**
 * The VeGame STS token manager (`VeGame\STSToken`): a cache-or-fetch manager
 * whose fetch is a signed `GET /` to `open.volcengineapi.com`. The UTC date it
 * signs with is taken once, when the manager is built.
 */
module VeGameSTSToken {
  import opened Php
  import opened Kernel
  import opened Transport
  import opened CredentialCache
  import opened VeGameSigning

  const CacheKeyPrefix := "douyin_vegame"

  /** The key pair and API version the manager signs with. */
  datatype Account = Account(ak: string, sk: string, version: string)

  /** `sprintf('%s:%s_%s:sts_token', CACHE_KEY_PREFIX, ak, sk)`. */
  function DefaultKey(account: Account): string {
    CacheKeyPrefix + ":" + account.ak + "_" + account.sk + ":sts_token"
  }

  /** The key `getKey()` returns given the memoised `key` field. */
  function EffectiveKey(key: Option<string>, account: Account): string {
    if key.Some? then key.value else DefaultKey(account)
  }

  /** `(string)$this->expire` for the nullable integer field. */
  function ExpireString(expire: Option<int>): string {
    if expire.Some? then IntToString(expire.value) else ""
  }

  /** `getQuery()`. */
  function STSQuery(account: Account, expire: Option<int>): Params {
    [("Action", One("STSToken")), ("Version", One(account.version)), ("ak", One(account.ak)),
     ("sk", One(account.sk)), ("expire", One(ExpireString(expire)))]
  }

  /** `getHeaders($body)`. */
  function STSHeaders(ext: Externals, account: Account, expire: Option<int>, date: string, body: Json): Params {
    [("Host", One(Host)), ("Content-Type", One(ContentType)), ("X-Date", One(date)),
     ("X-Content-Sha256", One(ContentHash(ext, body))),
     ("Authorization", One(AuthorizationHeader(ext, account.ak, account.sk, STSQuery(account, expire), date, body)))]
  }

  /**
   * The request `getAccessToken($body)` sends. Its query, `X-Date` and body are
   * exactly what its signature covers, so a receiver holding the same key
   * pair accepts it.
   */
  function STSRequest(ext: Externals, account: Account, expire: Option<int>, date: string, body: Json): (req: Request)
    ensures SignedBy(ext, account.ak, account.sk, req)
    ensures req.verb == "GET" && req.url == "/" && req.json == body
    ensures Lookup(req.query, "Action") == Some(One("STSToken"))
    ensures Lookup(req.query, "expire") == Some(One(ExpireString(expire)))
    ensures Lookup(req.headers, "X-Date") == Some(One(date))
  {
    var req := Request("GET", "/", STSQuery(account, expire), STSHeaders(ext, account, expire, date, body), body, None);
    STSQueryLookups(account, expire);
    STSHeadersLookups(ext, account, expire, date, body);
    SignedByIntro(ext, account.ak, account.sk, req, date);
    req
  }

  lemma STSQueryLookups(account: Account, expire: Option<int>)
    ensures Lookup(STSQuery(account, expire), "Action") == Some(One("STSToken"))
    ensures Lookup(STSQuery(account, expire), "expire") == Some(One(ExpireString(expire)))
  {
    var query := STSQuery(account, expire);
    LookupAt(query, 0, "Action");
    LookupAt(query, 4, "expire");
  }

  lemma STSHeadersLookups(ext: Externals, account: Account, expire: Option<int>, date: string, body: Json)
    ensures var headers := STSHeaders(ext, account, expire, date, body);
      && Lookup(headers, "Host") == Some(One(Host))
      && Lookup(headers, "Content-Type") == Some(One(ContentType))
      && Lookup(headers, "X-Date") == Some(One(date))
      && Lookup(headers, "X-Content-Sha256") == Some(One(ContentHash(ext, body)))
      && Lookup(headers, "Authorization") == Some(One(AuthorizationHeader(ext, account.ak, account.sk, STSQuery(account, expire), date, body)))
  {
    HeaderLayoutLookups(One(Host), One(ContentType), One(date), One(ContentHash(ext, body)),
                        One(AuthorizationHeader(ext, account.ak, account.sk, STSQuery(account, expire), date, body)));
  }

  /** `strtotime(...) - time()`; `strtotime` yields false (0 in arithmetic) on text it cannot read. */
  function TimeToLive(parsed: Option<int>, now: int): int {
    (if parsed.Some? then parsed.value else 0) - now
  }

  /** Whether `getAccessToken` reaches `getKey()`: only once the reply holds a token. */
  predicate ReadsKey(reply: Result<Json>) {
    reply.Ok? && !Empty(Get(Get(reply.value, "Result"), "token"))
  }

  /**
   * What `getAccessToken` makes of the provider's reply: the token it returns
   * (or what it throws) and the cache afterwards.
   */
  function STSFetch(ext: Externals, entries: map<string, Entry>, key: string, reply: Result<Json>,
                    now: int, strtotime: string -> Option<int>): (f: Fetched)
    ensures !ReadsKey(reply) ==> f.entries == entries && f.result.Err?
    ensures reply.Ok? && !ReadsKey(reply) ==>
      f.result == Err(Http("Failed to get sts_token: " + ext.jsonEncode(reply.value)))
    ensures f.result.Ok? ==>
      var result := Get(reply.value, "Result");
      && ReadsKey(reply)
      && JStr(f.result.value) == Get(result, "token")
      && Get(result, "expire_at").JStr?
      && f.entries == entries[key := Entry(JStr(f.result.value), TimeToLive(strtotime(Get(result, "expire_at").s), now))]
      && CachedToken(f.entries, key) == Some(f.result.value)
    ensures forall k :: k != key ==> Read(f.entries, k) == Read(entries, k)
  {
    match reply
    case Err(e) => Fetched(Err(e), entries)
    case Ok(response) =>
      var result := Get(response, "Result");
      var failure := Http("Failed to get sts_token: " + ext.jsonEncode(response));
      if Empty(Get(result, "token")) then Fetched(Err(failure), entries)
      else match Get(result, "expire_at")
        case JStr(at) => StoreToken(entries, key, Get(result, "token"), TimeToLive(strtotime(at), now), failure)
        case _ => Fetched(Err(TypeError("strtotime(): Argument #1 ($datetime) must be of type string")), entries)
  }

  class STSToken {
    const account: Account
    const expire: Option<int>
    const cache: Cache
    const http: HttpClient
    var key: Option<string>
    /** `Ymd\THis\Z` of the moment the manager was built. */
    var date: string

    /** The constructor's own `date` argument is overwritten by the current UTC time, so it is not a parameter here. */
    constructor (account: Account, cache: Cache, http: HttpClient, expire: Option<int>, key: Option<string>, utcNow: string)
      ensures this.account == account && this.cache == cache && this.http == http
      ensures this.expire == expire && this.key == key && date == utcNow
    {
      this.account := account;
      this.cache := cache;
      this.http := http;
      this.expire := expire;
      this.key := key;
      date := utcNow;
    }

    /** `getKey()`: the set key, or the default one, which is then remembered. */
    method GetKey() returns (k: string)
      modifies this
      ensures k == EffectiveKey(old(key), account)
      ensures old(key).None? ==> k == DefaultKey(account)
      ensures key == Some(k) && date == old(date)
    {
      if key.None? {
        key := Some(DefaultKey(account));
      }
      k := key.value;
    }

    /** `setKey($key)`. */
    method SetKey(k: string)
      modifies this
      ensures key == Some(k) && date == old(date)
    {
      key := Some(k);
    }

    /** `getAccessToken($body)`: one signed request, then the cache write of `STSFetch`. */
    method GetAccessToken(ext: Externals, body: Json, now: int, strtotime: string -> Option<int>) returns (r: Result<string>)
      requires IsArray(body)
      modifies this, cache, http
      ensures http.sent == old(http.sent) + [STSRequest(ext, account, expire, old(date), body)]
      ensures var f := STSFetch(ext, old(cache.entries), EffectiveKey(old(key), account),
                                NextReply(old(http.replies)), now, strtotime);
        r == f.result && cache.entries == f.entries
      ensures key == if ReadsKey(NextReply(old(http.replies))) then Some(EffectiveKey(old(key), account)) else old(key)
      ensures date == old(date)
    {
      r := Fetch(ext, STSRequest(ext, account, expire, date, body), now, strtotime);
    }

    /** Sends `req`, then stores `Result.token` until `Result.expire_at` as `STSFetch` says. */
    method Fetch(ext: Externals, req: Request, now: int, strtotime: string -> Option<int>) returns (r: Result<string>)
      modifies this, cache, http
      ensures http.sent == old(http.sent) + [req]
      ensures var f := STSFetch(ext, old(cache.entries), EffectiveKey(old(key), account),
                                NextReply(old(http.replies)), now, strtotime);
        r == f.result && cache.entries == f.entries
      ensures key == if ReadsKey(NextReply(old(http.replies))) then Some(EffectiveKey(old(key), account)) else old(key)
      ensures date == old(date)
    {
      var reply := http.Send(req);
      if reply.Err? {
        return Err(reply.error);
      }
      var response := reply.value;
      var result := Get(response, "Result");
      var failure := Http("Failed to get sts_token: " + ext.jsonEncode(response));
      if Empty(Get(result, "token")) {
        return Err(failure);
      }
      var k := GetKey();
      var expireAt := Get(result, "expire_at");
      if !expireAt.JStr? {
        return Err(TypeError("strtotime(): Argument #1 ($datetime) must be of type string"));
      }
      var ttl := TimeToLive(strtotime(expireAt.s), now);
      var stored := StoreToken(cache.entries, k, Get(result, "token"), ttl, failure);
      cache.Set(k, Get(result, "token"), ttl);
      r := stored.result;
    }

    /** `refresh()`: `getAccessToken()` with the empty body. */
    method Refresh(ext: Externals, now: int, strtotime: string -> Option<int>) returns (r: Result<string>)
      modifies this, cache, http
      ensures http.sent == old(http.sent) + [STSRequest(ext, account, expire, old(date), JList([]))]
      ensures var f := STSFetch(ext, old(cache.entries), EffectiveKey(old(key), account),
                                NextReply(old(http.replies)), now, strtotime);
        r == f.result && cache.entries == f.entries
      ensures key == if ReadsKey(NextReply(old(http.replies))) then Some(EffectiveKey(old(key), account)) else old(key)
      ensures date == old(date)
    {
      r := GetAccessToken(ext, JList([]), now, strtotime);
    }

    /**
     * `getToken()`: a usable cached token is returned without any request;
     * otherwise the token is fetched and cached under the same key.
     */
    method GetToken(ext: Externals, now: int, strtotime: string -> Option<int>) returns (r: Result<string>)
      modifies this, cache, http
      ensures key == Some(EffectiveKey(old(key), account)) && date == old(date)
      ensures var cached := CachedToken(old(cache.entries), EffectiveKey(old(key), account));
        cached.Some? ==> r == Ok(cached.value) && cache.entries == old(cache.entries)
                         && http.sent == old(http.sent) && http.replies == old(http.replies)
      ensures var cached := CachedToken(old(cache.entries), EffectiveKey(old(key), account));
        var f := STSFetch(ext, old(cache.entries), EffectiveKey(old(key), account),
                          NextReply(old(http.replies)), now, strtotime);
        cached.None? ==> r == f.result && cache.entries == f.entries
                         && http.sent == old(http.sent) + [STSRequest(ext, account, expire, old(date), JList([]))]
    {
      var k := GetKey();
      var cached := CachedToken(cache.entries, k);
      if cached.Some? {
        return Ok(cached.value);
      }
      r := Refresh(ext, now, strtotime);
    }

    /** `toQuery()`: `['access_token' => getToken()]`. */
    method ToQuery(ext: Externals, now: int, strtotime: string -> Option<int>) returns (r: Result<Params>)
      modifies this, cache, http
      ensures var cached := CachedToken(old(cache.entries), EffectiveKey(old(key), account));
        var f := STSFetch(ext, old(cache.entries), EffectiveKey(old(key), account),
                          NextReply(old(http.replies)), now, strtotime);
        var token := if cached.Some? then Ok(cached.value) else f.result;
        r == if token.Ok? then Ok([("access_token", One(token.value))]) else Err(token.error)
      ensures key == Some(EffectiveKey(old(key), account)) && date == old(date)
      ensures CachedToken(old(cache.entries), EffectiveKey(old(key), account)).Some? ==>
        cache.entries == old(cache.entries) && http.sent == old(http.sent) && http.replies == old(http.replies)
      ensures var f := STSFetch(ext, old(cache.entries), EffectiveKey(old(key), account),
                                NextReply(old(http.replies)), now, strtotime);
        CachedToken(old(cache.entries), EffectiveKey(old(key), account)).None? ==>
          cache.entries == f.entries && http.sent == old(http.sent) + [STSRequest(ext, account, expire, old(date), JList([]))]
    {
      var token := GetToken(ext, now, strtotime);
      if token.Err? {
        return Err(token.error);
      }
      r := Ok([("access_token", One(token.value))]);
    }
  }
}
