/**
 * The PSR-16 cache the credential managers share, reduced to what they use:
 * `get($key)` (null when absent) and `set($key, $value, $ttl)`. Entries keep
 * the TTL they were written with; expiry is the cache's business and is not
 * modelled. The functions below are the part every manager has in common: the
 * test for a usable cached token and the write after a successful fetch.
 */
module CredentialCache {
  import opened Php
  import opened Kernel

  datatype Entry = Entry(value: Json, ttl: int)

  class Cache {
    var entries: map<string, Entry>

    constructor (entries: map<string, Entry>)
      ensures this.entries == entries
    {
      this.entries := entries;
    }

    /** `get($key)`. */
    function Get(key: string): Json
      reads this
    {
      Read(entries, key)
    }

    /** `set($key, $value, $ttl)`. */
    method Set(key: string, value: Json, ttl: int)
      modifies this
      ensures entries == old(entries)[key := Entry(value, ttl)]
    {
      entries := entries[key := Entry(value, ttl)];
    }
  }

  function Read(entries: map<string, Entry>, key: string): Json {
    if key in entries then entries[key].value else JNull
  }

  /**
   * The cached token a manager may return without asking its provider:
   * `(bool)$token && is_string($token)`.
   */
  function CachedToken(entries: map<string, Entry>, key: string): Option<string> {
    match Read(entries, key)
    case JStr(s) => if EmptyStr(s) then None else Some(s)
    case _ => None
  }

  /** The outcome of a provider fetch: what it returns or throws, and the cache afterwards. */
  datatype Fetched = Fetched(result: Result<string>, entries: map<string, Entry>)

  /**
   * The tail every fetcher shares: an empty token throws `failure` before the
   * cache is touched; otherwise the token is written under `key` with `ttl` and
   * returned. The fetchers declare a `string` return type under strict types,
   * so a token that is not a string is written and then fails that type.
   */
  function StoreToken(entries: map<string, Entry>, key: string, token: Json, ttl: int, failure: Error): (f: Fetched)
    ensures Empty(token) ==> f == Fetched(Err(failure), entries)
    ensures !Empty(token) ==> f.entries == entries[key := Entry(token, ttl)]
    ensures !Empty(token) && token.JStr? ==> f.result == Ok(token.s) && CachedToken(f.entries, key) == Some(token.s)
    ensures !Empty(token) && !token.JStr? ==> f.result.Err? && f.result.error.TypeError?
    ensures forall k :: k != key ==> Read(f.entries, k) == Read(entries, k)
  {
    if Empty(token) then Fetched(Err(failure), entries)
    else
      var written := entries[key := Entry(token, ttl)];
      if token.JStr? then Fetched(Ok(token.s), written)
      else Fetched(Err(TypeError("Return value must be of type string")), written)
  }

  /** Whether a reply carries a non-empty token: only then does a fetcher go on to read its cache key. */
  predicate TokenArrived(reply: Result<Json>, token: Json -> Json) {
    reply.Ok? && !Empty(token(reply.value))
  }

  /**
   * The fetch every plain manager performs: a failed transport is passed on;
   * a reply whose token field (`token`) is empty throws `prefix` followed by
   * the JSON-encoded reply and leaves the cache alone; otherwise the token is
   * stored with the TTL read from the reply (`ttl`) and returned.
   */
  function FetchOutcome(ext: Externals, entries: map<string, Entry>, key: string, reply: Result<Json>,
                        token: Json -> Json, ttl: Json -> int, prefix: string): (f: Fetched)
    ensures reply.Err? ==> f == Fetched(Err(reply.error), entries)
    ensures reply.Ok? && !TokenArrived(reply, token) ==>
      f == Fetched(Err(Http(prefix + ext.jsonEncode(reply.value))), entries)
    ensures TokenArrived(reply, token) ==>
      f.entries == entries[key := Entry(token(reply.value), ttl(reply.value))]
    ensures f.result.Ok? ==>
      && TokenArrived(reply, token)
      && JStr(f.result.value) == token(reply.value)
      && CachedToken(f.entries, key) == Some(f.result.value)
    ensures forall k :: k != key ==> Read(f.entries, k) == Read(entries, k)
  {
    match reply
    case Err(e) => Fetched(Err(e), entries)
    case Ok(response) =>
      StoreToken(entries, key, token(response), ttl(response), Http(prefix + ext.jsonEncode(response)))
  }
}
