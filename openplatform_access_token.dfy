/**
 * The open-platform application token manager (`OpenPlatform\AccessToken`):
 * a cached token under a key derived from the app id, the secret and the
 * scope; on a miss, `POST api/apps/v2/token`, whose token sits under `data`.
 */
module OpenPlatformAccessToken {
  import opened Php
  import opened Kernel
  import opened Transport
  import opened CredentialCache

  const CacheKeyPrefix := "douyin_open_platform"
  const DefaultScope := "ma.clientToken"
  const FailurePrefix := "Failed to get access_token: "

  /** A null scope prints as the empty string in the key. */
  function ScopeString(scope: Option<string>): string {
    if scope.Some? then scope.value else ""
  }

  /** `sprintf('%s.access_token.%s.%s.%s', CACHE_KEY_PREFIX, appId, secret, scope)`. */
  function DefaultKey(appId: string, secret: string, scope: Option<string>): string {
    CacheKeyPrefix + ".access_token." + appId + "." + secret + "." + ScopeString(scope)
  }

  function EffectiveKey(key: Option<string>, appId: string, secret: string, scope: Option<string>): string {
    if key.Some? then key.value else DefaultKey(appId, secret, scope)
  }

  /** The scope as it is sent: null stays null. */
  function ScopeJson(scope: Option<string>): Json {
    if scope.Some? then JStr(scope.value) else JNull
  }

  /** The request of `getAccessToken()`. */
  function TokenRequest(appId: string, secret: string, scope: Option<string>): Request {
    Request("POST", "api/apps/v2/token", [], [],
            JMap(map["grant_type" := JStr("client_credential"), "scope" := ScopeJson(scope),
                     "appid" := JStr(appId), "secret" := JStr(secret)]), None)
  }

  /** `$response['data']['access_token']`. */
  function DataTokenOf(response: Json): Json {
    Get(Get(response, "data"), "access_token")
  }

  /** `intval($response['data']['expires_in'])`. */
  function DataTtlOf(response: Json): int {
    IntVal(Get(Get(response, "data"), "expires_in"))
  }

  /** Two managers that differ only in scope never share a cache entry. */
  lemma ScopesKeepKeysApart(appId: string, secret: string, s1: string, s2: string)
    requires s1 != s2
    ensures DefaultKey(appId, secret, Some(s1)) != DefaultKey(appId, secret, Some(s2))
  {
    var prefix := CacheKeyPrefix + ".access_token." + appId + "." + secret + ".";
    assert DefaultKey(appId, secret, Some(s1))[|prefix|..] == s1;
    assert DefaultKey(appId, secret, Some(s2))[|prefix|..] == s2;
  }

  class AccessToken {
    const appId: string
    const secret: string
    const scope: Option<string>
    const cache: Cache
    const http: HttpClient
    var key: Option<string>

    /** The scope defaults to `ma.clientToken`; callers pass `Some(DefaultScope)` for that. */
    constructor (appId: string, secret: string, key: Option<string>, cache: Cache, http: HttpClient, scope: Option<string>)
      ensures this.appId == appId && this.secret == secret && this.key == key
      ensures this.cache == cache && this.http == http && this.scope == scope
    {
      this.appId := appId;
      this.secret := secret;
      this.key := key;
      this.cache := cache;
      this.http := http;
      this.scope := scope;
    }

    /** `getKey()`: the set key, or the default one, which is then remembered. */
    method GetKey() returns (k: string)
      modifies this
      ensures k == EffectiveKey(old(key), appId, secret, scope)
      ensures old(key).None? ==> k == DefaultKey(appId, secret, scope)
      ensures key == Some(k)
    {
      if key.None? {
        key := Some(DefaultKey(appId, secret, scope));
      }
      k := key.value;
    }

    /** `setKey($key)`. */
    method SetKey(k: string)
      modifies this
      ensures key == Some(k)
    {
      key := Some(k);
    }

    /** `getAccessToken()`: one request, then the cache write of `FetchOutcome`. */
    method GetAccessToken(ext: Externals) returns (r: Result<string>)
      modifies this, cache, http
      ensures http.sent == old(http.sent) + [TokenRequest(appId, secret, scope)]
      ensures var f := FetchOutcome(ext, old(cache.entries), EffectiveKey(old(key), appId, secret, scope),
                                    NextReply(old(http.replies)), DataTokenOf, DataTtlOf, FailurePrefix);
        r == f.result && cache.entries == f.entries
      ensures key == if TokenArrived(NextReply(old(http.replies)), DataTokenOf)
                     then Some(EffectiveKey(old(key), appId, secret, scope)) else old(key)
    {
      var reply := http.Send(TokenRequest(appId, secret, scope));
      if reply.Err? {
        return Err(reply.error);
      }
      var response := reply.value;
      var failure := Http(FailurePrefix + ext.jsonEncode(response));
      if Empty(DataTokenOf(response)) {
        return Err(failure);
      }
      var k := GetKey();
      var stored := StoreToken(cache.entries, k, DataTokenOf(response), DataTtlOf(response), failure);
      cache.Set(k, DataTokenOf(response), DataTtlOf(response));
      r := stored.result;
    }

    /** `refresh()`: `getAccessToken()`. */
    method Refresh(ext: Externals) returns (r: Result<string>)
      modifies this, cache, http
      ensures http.sent == old(http.sent) + [TokenRequest(appId, secret, scope)]
      ensures var f := FetchOutcome(ext, old(cache.entries), EffectiveKey(old(key), appId, secret, scope),
                                    NextReply(old(http.replies)), DataTokenOf, DataTtlOf, FailurePrefix);
        r == f.result && cache.entries == f.entries
      ensures key == if TokenArrived(NextReply(old(http.replies)), DataTokenOf)
                     then Some(EffectiveKey(old(key), appId, secret, scope)) else old(key)
    {
      r := GetAccessToken(ext);
    }

    /**
     * `getToken()`: a usable cached token is returned without any request;
     * otherwise the token is fetched and cached under the same key.
     */
    method GetToken(ext: Externals) returns (r: Result<string>)
      modifies this, cache, http
      ensures key == Some(EffectiveKey(old(key), appId, secret, scope))
      ensures var cached := CachedToken(old(cache.entries), EffectiveKey(old(key), appId, secret, scope));
        cached.Some? ==> r == Ok(cached.value) && cache.entries == old(cache.entries)
                         && http.sent == old(http.sent) && http.replies == old(http.replies)
      ensures var k := EffectiveKey(old(key), appId, secret, scope);
        var f := FetchOutcome(ext, old(cache.entries), k, NextReply(old(http.replies)), DataTokenOf, DataTtlOf, FailurePrefix);
        CachedToken(old(cache.entries), k).None? ==>
          r == f.result && cache.entries == f.entries
          && http.sent == old(http.sent) + [TokenRequest(appId, secret, scope)]
    {
      var k := GetKey();
      var cached := CachedToken(cache.entries, k);
      if cached.Some? {
        return Ok(cached.value);
      }
      r := Refresh(ext);
    }

    /** `toQuery()`: `['access_token' => getToken()]`. */
    method ToQuery(ext: Externals) returns (r: Result<Params>)
      modifies this, cache, http
      ensures var k := EffectiveKey(old(key), appId, secret, scope);
        var cached := CachedToken(old(cache.entries), k);
        var f := FetchOutcome(ext, old(cache.entries), k, NextReply(old(http.replies)), DataTokenOf, DataTtlOf, FailurePrefix);
        var token := if cached.Some? then Ok(cached.value) else f.result;
        r == if token.Ok? then Ok([("access_token", One(token.value))]) else Err(token.error)
      ensures key == Some(EffectiveKey(old(key), appId, secret, scope))
      ensures var k := EffectiveKey(old(key), appId, secret, scope);
        CachedToken(old(cache.entries), k).Some? ==>
          cache.entries == old(cache.entries) && http.sent == old(http.sent) && http.replies == old(http.replies)
      ensures var k := EffectiveKey(old(key), appId, secret, scope);
        var f := FetchOutcome(ext, old(cache.entries), k, NextReply(old(http.replies)), DataTokenOf, DataTtlOf, FailurePrefix);
        CachedToken(old(cache.entries), k).None? ==>
          cache.entries == f.entries && http.sent == old(http.sent) + [TokenRequest(appId, secret, scope)]
    {
      var token := GetToken(ext);
      if token.Err? {
        return Err(token.error);
      }
      r := Ok([("access_token", One(token.value))]);
    }
  }
}
