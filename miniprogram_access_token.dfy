/**
 * The mini-program access token manager (`MiniProgram\AccessToken`): a cached
 * token under a key derived from the app id, the secret and whether the
 * stable-token endpoint is used; on a miss, a fetch from one of two endpoints.
 */
module MiniProgramAccessToken {
  import opened Php
  import opened Kernel
  import opened Transport
  import opened CredentialCache

  const CacheKeyPrefix := "mini_app"
  const StableTokenUrl := "https://developer.toutiao.com/cgi-bin/stable_token"
  const TokenPath := "cgi-bin/token"

  /** `sprintf('%s.access_token.%s.%s.%s', CACHE_KEY_PREFIX, appId, secret, (int)stable)`. */
  function DefaultKey(appId: string, secret: string, stable: bool): string {
    CacheKeyPrefix + ".access_token." + appId + "." + secret + "." + (if stable then "1" else "0")
  }

  function EffectiveKey(key: Option<string>, appId: string, secret: string, stable: bool): string {
    if key.Some? then key.value else DefaultKey(appId, secret, stable)
  }

  /** The stable and the plain token of one app are cached apart. */
  lemma StableAndPlainKeysDiffer(appId: string, secret: string)
    ensures DefaultKey(appId, secret, true) != DefaultKey(appId, secret, false)
  {
    var stable, plain := DefaultKey(appId, secret, true), DefaultKey(appId, secret, false);
    assert stable[|stable| - 1] == '1';
    assert plain[|plain| - 1] == '0';
  }

  /** The request of `getStableAccessToken($force_refresh)`. */
  function StableRequest(appId: string, secret: string, forceRefresh: bool): Request {
    Request("POST", StableTokenUrl, [], [],
            JMap(map["grant_type" := JStr("client_credential"), "appid" := JStr(appId),
                     "secret" := JStr(secret), "force_refresh" := JBool(forceRefresh)]), None)
  }

  /** The request of `getAccessToken()`. */
  function PlainRequest(appId: string, secret: string): Request {
    Request("GET", TokenPath,
            [("grant_type", One("client_credential")), ("appid", One(appId)), ("secret", One(secret))], [], JNull, None)
  }

  /** `$response['access_token']`. */
  function TokenOf(response: Json): Json {
    Get(response, "access_token")
  }

  /** `intval($response['expires_in'])`. */
  function TtlOf(response: Json): int {
    IntVal(Get(response, "expires_in"))
  }

  function FailurePrefix(stable: bool): string {
    if stable then "Failed to get stable access_token: " else "Failed to get access_token: "
  }

  /** The request `refresh()` sends: the stable endpoint exactly when the manager is stable. */
  function RefreshRequest(appId: string, secret: string, stable: bool): Request {
    if stable then StableRequest(appId, secret, false) else PlainRequest(appId, secret)
  }

  class AccessToken {
    const appId: string
    const secret: string
    /** `(bool)$stable`; a null `stable` behaves as false in both of its uses. */
    const stable: bool
    const cache: Cache
    const http: HttpClient
    var key: Option<string>

    constructor (appId: string, secret: string, key: Option<string>, cache: Cache, http: HttpClient, stable: bool)
      ensures this.appId == appId && this.secret == secret && this.key == key
      ensures this.cache == cache && this.http == http && this.stable == stable
    {
      this.appId := appId;
      this.secret := secret;
      this.key := key;
      this.cache := cache;
      this.http := http;
      this.stable := stable;
    }

    /** `getKey()`: the set key, or the default one, which is then remembered. */
    method GetKey() returns (k: string)
      modifies this
      ensures k == EffectiveKey(old(key), appId, secret, stable)
      ensures old(key).None? ==> k == DefaultKey(appId, secret, stable)
      ensures key == Some(k)
    {
      if key.None? {
        key := Some(DefaultKey(appId, secret, stable));
      }
      k := key.value;
    }

    /** `setKey($key)`. */
    method SetKey(k: string)
      modifies this
      ensures key == Some(k)
    {
      key := Some(k);
    }

    /** Sends `req`, then stores the top-level `access_token` as `FetchOutcome` says. */
    method Fetch(ext: Externals, req: Request, prefix: string) returns (r: Result<string>)
      modifies this, cache, http
      ensures http.sent == old(http.sent) + [req]
      ensures var f := FetchOutcome(ext, old(cache.entries), EffectiveKey(old(key), appId, secret, stable),
                                    NextReply(old(http.replies)), TokenOf, TtlOf, prefix);
        r == f.result && cache.entries == f.entries
      ensures key == if TokenArrived(NextReply(old(http.replies)), TokenOf)
                     then Some(EffectiveKey(old(key), appId, secret, stable)) else old(key)
    {
      var reply := http.Send(req);
      if reply.Err? {
        return Err(reply.error);
      }
      var response := reply.value;
      var failure := Http(prefix + ext.jsonEncode(response));
      if Empty(TokenOf(response)) {
        return Err(failure);
      }
      var k := GetKey();
      var stored := StoreToken(cache.entries, k, TokenOf(response), TtlOf(response), failure);
      cache.Set(k, TokenOf(response), TtlOf(response));
      r := stored.result;
    }

    /** `getStableAccessToken($force_refresh)`. */
    method GetStableAccessToken(ext: Externals, forceRefresh: bool) returns (r: Result<string>)
      modifies this, cache, http
      ensures http.sent == old(http.sent) + [StableRequest(appId, secret, forceRefresh)]
      ensures var f := FetchOutcome(ext, old(cache.entries), EffectiveKey(old(key), appId, secret, stable),
                                    NextReply(old(http.replies)), TokenOf, TtlOf, FailurePrefix(true));
        r == f.result && cache.entries == f.entries
      ensures key == if TokenArrived(NextReply(old(http.replies)), TokenOf)
                     then Some(EffectiveKey(old(key), appId, secret, stable)) else old(key)
    {
      r := Fetch(ext, StableRequest(appId, secret, forceRefresh), FailurePrefix(true));
    }

    /** `getAccessToken()`. */
    method GetAccessToken(ext: Externals) returns (r: Result<string>)
      modifies this, cache, http
      ensures http.sent == old(http.sent) + [PlainRequest(appId, secret)]
      ensures var f := FetchOutcome(ext, old(cache.entries), EffectiveKey(old(key), appId, secret, stable),
                                    NextReply(old(http.replies)), TokenOf, TtlOf, FailurePrefix(false));
        r == f.result && cache.entries == f.entries
      ensures key == if TokenArrived(NextReply(old(http.replies)), TokenOf)
                     then Some(EffectiveKey(old(key), appId, secret, stable)) else old(key)
    {
      r := Fetch(ext, PlainRequest(appId, secret), FailurePrefix(false));
    }

    /** `refresh()`: the stable endpoint (without forcing) when `stable`, the plain one otherwise. */
    method Refresh(ext: Externals) returns (r: Result<string>)
      modifies this, cache, http
      ensures http.sent == old(http.sent) + [RefreshRequest(appId, secret, stable)]
      ensures var f := FetchOutcome(ext, old(cache.entries), EffectiveKey(old(key), appId, secret, stable),
                                    NextReply(old(http.replies)), TokenOf, TtlOf, FailurePrefix(stable));
        r == f.result && cache.entries == f.entries
      ensures key == if TokenArrived(NextReply(old(http.replies)), TokenOf)
                     then Some(EffectiveKey(old(key), appId, secret, stable)) else old(key)
    {
      if stable {
        r := GetStableAccessToken(ext, false);
      } else {
        r := GetAccessToken(ext);
      }
    }

    /**
     * `getToken()`: a usable cached token is returned without any request;
     * otherwise `refresh()` fetches it and caches it under the same key.
     */
    method GetToken(ext: Externals) returns (r: Result<string>)
      modifies this, cache, http
      ensures key == Some(EffectiveKey(old(key), appId, secret, stable))
      ensures var cached := CachedToken(old(cache.entries), EffectiveKey(old(key), appId, secret, stable));
        cached.Some? ==> r == Ok(cached.value) && cache.entries == old(cache.entries)
                         && http.sent == old(http.sent) && http.replies == old(http.replies)
      ensures var k := EffectiveKey(old(key), appId, secret, stable);
        var f := FetchOutcome(ext, old(cache.entries), k, NextReply(old(http.replies)), TokenOf, TtlOf, FailurePrefix(stable));
        CachedToken(old(cache.entries), k).None? ==>
          r == f.result && cache.entries == f.entries
          && http.sent == old(http.sent) + [RefreshRequest(appId, secret, stable)]
    {
      var k := GetKey();
      var cached := CachedToken(cache.entries, k);
      if cached.Some? {
        return Ok(cached.value);
      }
      r := Refresh(ext);
    }

    /** `toQuery()`: `['access_token' => getToken()]`. */
    method ToQuery(ext: Externals) returns (r: Result<Params>)
      modifies this, cache, http
      ensures var k := EffectiveKey(old(key), appId, secret, stable);
        var cached := CachedToken(old(cache.entries), k);
        var f := FetchOutcome(ext, old(cache.entries), k, NextReply(old(http.replies)), TokenOf, TtlOf, FailurePrefix(stable));
        var token := if cached.Some? then Ok(cached.value) else f.result;
        r == if token.Ok? then Ok([("access_token", One(token.value))]) else Err(token.error)
      ensures key == Some(EffectiveKey(old(key), appId, secret, stable))
      ensures var k := EffectiveKey(old(key), appId, secret, stable);
        CachedToken(old(cache.entries), k).Some? ==>
          cache.entries == old(cache.entries) && http.sent == old(http.sent) && http.replies == old(http.replies)
      ensures var k := EffectiveKey(old(key), appId, secret, stable);
        var f := FetchOutcome(ext, old(cache.entries), k, NextReply(old(http.replies)), TokenOf, TtlOf, FailurePrefix(stable));
        CachedToken(old(cache.entries), k).None? ==>
          cache.entries == f.entries && http.sent == old(http.sent) + [RefreshRequest(appId, secret, stable)]
    {
      var token := GetToken(ext);
      if token.Err? {
        return Err(token.error);
      }
      r := Ok([("access_token", One(token.value))]);
    }
  }
}
