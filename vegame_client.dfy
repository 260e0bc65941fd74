/**
 * The VeGame API client (`VeGame\Traits\InteractWithClient`): it keeps the
 * action, the UTC date and the request options as fields, merges the
 * caller's options into signed defaults and sends the request.
 */
module VeGameClient {
  import opened Php
  import opened Kernel
  import opened Transport
  import opened VeGameSigning

  // ---------------------------------------------------------------------------
  // `array_merge_recursive` on one level of string-valued entries
  // ---------------------------------------------------------------------------

  function Values(v: QueryValue): seq<string> {
    match v
    case One(s) => [s]
    case Many(vs) => vs
  }

  /** Two values under the same key are combined into one array value, the first one's elements first. */
  function Combine(d: QueryValue, u: QueryValue): QueryValue {
    Many(Values(d) + Values(u))
  }

  /** Merges one caller entry: an existing key gets the combined value in place, a new key is appended. */
  function MergeEntry(ps: Params, e: (string, QueryValue)): Params {
    match IndexOf(ps, e.0)
    case Some(i) => ps[i := (e.0, Combine(ps[i].1, e.1))]
    case None => ps + [e]
  }

  /** `array_merge_recursive($defaults, $user)` for arrays of strings and lists of strings. */
  function MergeRecursive(defaults: Params, user: Params): Params
    decreases |user|
  {
    if |user| == 0 then defaults else MergeRecursive(MergeEntry(defaults, user[0]), user[1..])
  }

  /** The value a key has after the merge, given its value on either side. */
  function Merged(d: Option<QueryValue>, u: Option<QueryValue>): Option<QueryValue> {
    match (d, u)
    case (None, _) => u
    case (_, None) => d
    case (Some(x), Some(y)) => Some(Combine(x, y))
  }

  lemma MergeEntryLookup(ps: Params, e: (string, QueryValue), k: string)
    ensures Lookup(MergeEntry(ps, e), k) == if e.0 == k then Merged(Lookup(ps, k), Some(e.1)) else Lookup(ps, k)
  {
    LookupIndexOf(ps, k);
    match IndexOf(ps, e.0)
    case Some(i) =>
      LookupReplace(ps, i, (e.0, Combine(ps[i].1, e.1)), k);
    case None =>
      LookupAppend(ps, e, k);
  }

  /**
   * After the merge, a key only the defaults have keeps its value, a key only
   * the caller has takes the caller's, and a key both have holds both values
   * as one array, the default's first.
   */
  lemma {:induction false} MergeRecursiveLookup(defaults: Params, user: Params, k: string)
    requires DistinctKeys(user)
    ensures Lookup(MergeRecursive(defaults, user), k) == Merged(Lookup(defaults, k), Lookup(user, k))
    decreases |user|
  {
    if |user| > 0 {
      var rest := user[1..];
      assert DistinctKeys(rest) by {
        forall i, j | 0 <= i < j < |rest| ensures rest[i].0 != rest[j].0 {
          assert rest[i] == user[i + 1] && rest[j] == user[j + 1];
        }
      }
      MergeRecursiveLookup(MergeEntry(defaults, user[0]), rest, k);
      MergeEntryLookup(defaults, user[0], k);
    }
  }

  // ---------------------------------------------------------------------------
  // Options
  // ---------------------------------------------------------------------------

  /** The caller's `$options`: `body`, `query` and `headers` (an absent key is an empty array). */
  datatype UserOptions = UserOptions(body: Option<Json>, query: Params, headers: Params)

  /** `$this->options` once it has been set: the merged query and headers, the JSON body and the caller's `body` entry. */
  datatype Options = Options(query: Params, headers: Params, json: Json, body: Option<Json>)

  /** `$options['body'] ?? []`. */
  function BodyOf(user: UserOptions): Json {
    if user.body.Some? && user.body.value != JNull then user.body.value else JList([])
  }

  /** `(string)$this->config->get($name)`. */
  function ConfigString(config: map<string, Json>, name: string): string {
    ToStr(Get(JMap(config), name))
  }

  function DefaultQuery(config: map<string, Json>, action: string): Params {
    [("Action", One(action)), ("Version", One(ConfigString(config, "version"))),
     ("ak", One(ConfigString(config, "ak"))), ("sk", One(ConfigString(config, "sk"))), ("expire", One("600"))]
  }

  function DefaultHeaders(ext: Externals, date: string, body: Json): Params {
    [("Host", One(Host)), ("Content-Type", One(ContentType)), ("X-Date", One(date)),
     ("X-Content-Sha256", One(ContentHash(ext, body)))]
  }

  /** The options after line one of `setHttpClientOptions`: defaults merged with the caller's options. */
  function MergedOptions(ext: Externals, config: map<string, Json>, action: string, date: string,
                         user: UserOptions): Options {
    var body := BodyOf(user);
    Options(MergeRecursive(DefaultQuery(config, action), user.query),
            MergeRecursive(DefaultHeaders(ext, date, body), user.headers),
            body, user.body)
  }

  /** The options once `Authorization` has been set from the merged query, signing a request with this method and path. */
  function SignedOptionsFor(ext: Externals, config: map<string, Json>, action: string, date: string,
                            user: UserOptions, verb: string, path: string): Options {
    var merged := MergedOptions(ext, config, action, date, user);
    var auth := RequestAuthorization(ext, ConfigString(config, "ak"), ConfigString(config, "sk"),
                                     verb, path, merged.query, date, BodyOf(user));
    merged.(headers := SetEntry(merged.headers, "Authorization", One(auth)))
  }

  /** The options `setHttpClientOptions` stores: `authorization()` always signs `GET /`. */
  function SignedOptions(ext: Externals, config: map<string, Json>, action: string, date: string,
                         user: UserOptions): Options {
    SignedOptionsFor(ext, config, action, date, user, "GET", "/")
  }

  /** The request `request($verb, $path, $this->options)` sends: every option, the `json` and the `body` entry included. */
  function OptionsRequest(verb: string, path: string, options: Options): Request {
    Request(verb, path, options.query, options.headers, options.json, options.body)
  }

  /** The request `get($path, $options)` sends. */
  function GetRequest(path: string, options: Options): Request {
    OptionsRequest("GET", path, options)
  }

  /**
   * The query after `setAction(a)`: `Action=a`, or, when the caller also
   * passes an `Action`, an array holding `a` followed by the caller's values.
   */
  lemma ActionInQuery(ext: Externals, config: map<string, Json>, action: string, date: string, user: UserOptions)
    requires DistinctKeys(user.query)
    ensures var query := SignedOptions(ext, config, action, date, user).query;
      && (Lookup(user.query, "Action").None? ==> Lookup(query, "Action") == Some(One(action)))
      && (Lookup(user.query, "Action").Some? ==>
            Lookup(query, "Action") == Some(Many([action] + Values(Lookup(user.query, "Action").value))))
      && Lookup(query, "expire") == Merged(Some(One("600")), Lookup(user.query, "expire"))
  {
    var defaults := DefaultQuery(config, action);
    LookupAt(defaults, 0, "Action");
    LookupAt(defaults, 4, "expire");
    MergeRecursiveLookup(defaults, user.query, "Action");
    MergeRecursiveLookup(defaults, user.query, "expire");
  }

  /** The caller adds no value of its own to any of the four headers the signature covers. */
  predicate LeavesSignedHeaders(user: Params) {
    && Lookup(user, "Host").None? && Lookup(user, "Content-Type").None?
    && Lookup(user, "X-Date").None? && Lookup(user, "X-Content-Sha256").None?
  }

  /**
   * A request that carries the options signed for its own method and path
   * verifies under the configured key pair exactly when the caller left the
   * signed headers alone: a caller value for one of them is merged with the
   * default into a two-element array, which no receiver reads as the signed
   * value.
   */
  lemma SignedForRequestIsSigned(ext: Externals, config: map<string, Json>, action: string, date: string,
                                                    user: UserOptions, verb: string, path: string)
    requires DistinctKeys(user.headers)
    ensures var signed := SignedOptionsFor(ext, config, action, date, user, verb, path);
      SignedBy(ext, ConfigString(config, "ak"), ConfigString(config, "sk"), OptionsRequest(verb, path, signed))
      <==> LeavesSignedHeaders(user.headers)
  {
    var body := BodyOf(user);
    var merged := MergedOptions(ext, config, action, date, user);
    var auth := RequestAuthorization(ext, ConfigString(config, "ak"), ConfigString(config, "sk"),
                                     verb, path, merged.query, date, body);
    SignedHeaderLookups(One(Host), One(ContentType), One(date), One(ContentHash(ext, body)), user.headers, One(auth));
    var req := OptionsRequest(verb, path, SignedOptionsFor(ext, config, action, date, user, verb, path));
    if LeavesSignedHeaders(user.headers) {
      SignedByIntro(ext, ConfigString(config, "ak"), ConfigString(config, "sk"), req, date);
    }
  }

  /**
   * The default headers, merged with the caller's and completed with
   * `Authorization`: a signed header the caller leaves alone keeps its
   * default value, one the caller also sets holds both values as an array,
   * and `Authorization` is the one just set.
   */
  lemma SignedHeaderLookups(host: QueryValue, contentType: QueryValue, date: QueryValue, hash: QueryValue,
                            user: Params, auth: QueryValue)
    requires DistinctKeys(user)
    ensures var hs := SetEntry(MergeRecursive([("Host", host), ("Content-Type", contentType), ("X-Date", date),
                                               ("X-Content-Sha256", hash)], user), "Authorization", auth);
      && Lookup(hs, "Host") == Merged(Some(host), Lookup(user, "Host"))
      && Lookup(hs, "Content-Type") == Merged(Some(contentType), Lookup(user, "Content-Type"))
      && Lookup(hs, "X-Date") == Merged(Some(date), Lookup(user, "X-Date"))
      && Lookup(hs, "X-Content-Sha256") == Merged(Some(hash), Lookup(user, "X-Content-Sha256"))
      && Lookup(hs, "Authorization") == Some(auth)
  {
    var defaults := [("Host", host), ("Content-Type", contentType), ("X-Date", date), ("X-Content-Sha256", hash)];
    var merged := MergeRecursive(defaults, user);
    LookupAt(defaults, 0, "Host");
    LookupAt(defaults, 1, "Content-Type");
    LookupAt(defaults, 2, "X-Date");
    LookupAt(defaults, 3, "X-Content-Sha256");
    MergeRecursiveLookup(defaults, user, "Host");
    MergeRecursiveLookup(defaults, user, "Content-Type");
    MergeRecursiveLookup(defaults, user, "X-Date");
    MergeRecursiveLookup(defaults, user, "X-Content-Sha256");
    SetEntryLookup(merged, "Authorization", auth, "Host");
    SetEntryLookup(merged, "Authorization", auth, "Content-Type");
    SetEntryLookup(merged, "Authorization", auth, "X-Date");
    SetEntryLookup(merged, "Authorization", auth, "X-Content-Sha256");
    SetEntryLookup(merged, "Authorization", auth, "Authorization");
  }

  /**
   * `get('/', $options)` sends a request that verifies under the configured
   * key pair exactly when the caller leaves the signed headers alone. For any
   * other path the signature still covers `/`.
   */
  lemma GetRequestIsSigned(ext: Externals, config: map<string, Json>, action: string, date: string, user: UserOptions)
    requires DistinctKeys(user.headers)
    ensures SignedBy(ext, ConfigString(config, "ak"), ConfigString(config, "sk"),
                     GetRequest("/", SignedOptions(ext, config, action, date, user)))
            <==> LeavesSignedHeaders(user.headers)
  {
    SignedForRequestIsSigned(ext, config, action, date, user, "GET", "/");
  }

  /** The request `get` sends carries the caller's `body` entry as well as the same value as `json`. */
  lemma GetRequestCarriesBothBodies(ext: Externals, config: map<string, Json>, action: string, date: string,
                                    user: UserOptions, path: string)
    requires user.body.Some? && user.body.value != JNull
    ensures var req := GetRequest(path, SignedOptions(ext, config, action, date, user));
      req.json == user.body.value && req.body == user.body
  {
  }

  /** The request `post` sends as written carries no header, so no receiver can check its signature. */
  lemma PostRequestIsUnsigned(ext: Externals, ak: string, sk: string, path: string)
    ensures !SignedBy(ext, ak, sk, Request("POST", path, [], [], JNull, None))
  {
  }

  class Client {
    const config: map<string, Json>
    const http: HttpClient
    /** None while the typed property has never been assigned. */
    var action: Option<string>
    /** None while the typed property has never been assigned. */
    var date: Option<string>
    /** None while `$this->options` is still the initial empty array. */
    var options: Option<Options>

    constructor (config: map<string, Json>, http: HttpClient)
      ensures this.config == config && this.http == http
      ensures action == None && date == None && options == None
    {
      this.config := config;
      this.http := http;
      action := None;
      date := None;
      options := None;
    }

    /** `setAction($action)`. */
    method SetAction(a: string)
      modifies this
      ensures action == Some(a) && date == old(date) && options == old(options)
    {
      action := Some(a);
    }

    /** `setUTCDate()`, with the current time formatted as `Ymd\THis\Z` given as `utcNow`. */
    method SetUTCDate(utcNow: string)
      modifies this
      ensures date == Some(utcNow) && action == old(action) && options == old(options)
    {
      date := Some(utcNow);
    }

    /**
     * The signing step of `authorization($body)` over the current fields, for
     * a request with this method and path: the date is read first, then the
     * options' query.
     */
    function AuthorizationFor(ext: Externals, verb: string, path: string, body: Json): (r: Result<string>)
      reads this
      ensures date.None? ==> r == Err(Uninitialized("date"))
      ensures date.Some? && options.None? ==> r.Err? && r.error.TypeError?
      ensures date.Some? && options.Some? ==>
        r == Ok(RequestAuthorization(ext, ConfigString(config, "ak"), ConfigString(config, "sk"),
                                     verb, path, options.value.query, date.value, body))
    {
      if date.None? then Err(Uninitialized("date"))
      else if options.None? then Err(TypeError("buildParams(): Argument #1 ($params) must be of type array, null given"))
      else Ok(RequestAuthorization(ext, ConfigString(config, "ak"), ConfigString(config, "sk"),
                                   verb, path, options.value.query, date.value, body))
    }

    /** `authorization($body)`: the header for `GET /`. */
    function Authorization(ext: Externals, body: Json): (r: Result<string>)
      reads this
      ensures date.None? ==> r == Err(Uninitialized("date"))
      ensures date.Some? && options.None? ==> r.Err? && r.error.TypeError?
      ensures date.Some? && options.Some? ==>
        r == Ok(AuthorizationHeader(ext, ConfigString(config, "ak"), ConfigString(config, "sk"),
                                    options.value.query, date.value, body))
    {
      AuthorizationFor(ext, "GET", "/", body)
    }

    /**
     * `setHttpClientOptions($options)`, signing for a request with this method
     * and path: reads the action and the date (an unassigned one is an Error
     * and changes nothing), stores the merged options, then signs them; a
     * `body` that is not an array fails the `array` parameter of
     * `authorization` after the options are stored.
     */
    method SignOptions(ext: Externals, user: UserOptions, verb: string, path: string) returns (r: Result<()>)
      modifies this
      ensures action == old(action) && date == old(date)
      ensures old(action).None? ==> r == Err(Uninitialized("action")) && options == old(options)
      ensures old(action).Some? && old(date).None? ==> r == Err(Uninitialized("date")) && options == old(options)
      ensures old(action).Some? && old(date).Some? && !IsArray(BodyOf(user)) ==>
        r.Err? && r.error.TypeError?
        && options == Some(MergedOptions(ext, config, old(action).value, old(date).value, user))
      ensures old(action).Some? && old(date).Some? && IsArray(BodyOf(user)) ==>
        r == Ok(()) && options == Some(SignedOptionsFor(ext, config, old(action).value, old(date).value, user, verb, path))
    {
      if action.None? {
        return Err(Uninitialized("action"));
      }
      if date.None? {
        return Err(Uninitialized("date"));
      }
      var merged := MergedOptions(ext, config, action.value, date.value, user);
      options := Some(merged);
      var body := BodyOf(user);
      if !IsArray(body) {
        return Err(TypeError("authorization(): Argument #1 ($body) must be of type array"));
      }
      var auth := AuthorizationFor(ext, verb, path, body);
      options := Some(merged.(headers := SetEntry(merged.headers, "Authorization", One(auth.value))));
      r := Ok(());
    }

    /** `setHttpClientOptions($options)`: the options signed by `authorization()`, so for `GET /`. */
    method SetHttpClientOptions(ext: Externals, user: UserOptions) returns (r: Result<()>)
      modifies this
      ensures action == old(action) && date == old(date)
      ensures old(action).None? ==> r == Err(Uninitialized("action")) && options == old(options)
      ensures old(action).Some? && old(date).None? ==> r == Err(Uninitialized("date")) && options == old(options)
      ensures old(action).Some? && old(date).Some? && !IsArray(BodyOf(user)) ==>
        r.Err? && r.error.TypeError?
        && options == Some(MergedOptions(ext, config, old(action).value, old(date).value, user))
      ensures old(action).Some? && old(date).Some? && IsArray(BodyOf(user)) ==>
        r == Ok(()) && options == Some(SignedOptions(ext, config, old(action).value, old(date).value, user))
    {
      r := SignOptions(ext, user, "GET", "/");
    }

    /**
     * `get($path, $options)`: a fresh date, the signed options, then the
     * request with exactly those options.
     */
    method Get(ext: Externals, path: string, user: UserOptions, utcNow: string) returns (r: Result<Json>)
      modifies this, http
      ensures date == Some(utcNow) && action == old(action)
      ensures old(action).None? ==> r == Err(Uninitialized("action")) && http.sent == old(http.sent) && options == old(options)
      ensures old(action).Some? && !IsArray(BodyOf(user)) ==>
        r.Err? && r.error.TypeError? && http.sent == old(http.sent)
        && options == Some(MergedOptions(ext, config, old(action).value, utcNow, user))
      ensures old(action).Some? && IsArray(BodyOf(user)) ==>
        var signed := SignedOptions(ext, config, old(action).value, utcNow, user);
        && options == Some(signed)
        && http.sent == old(http.sent) + [GetRequest(path, signed)]
        && r == NextReply(old(http.replies))
    {
      SetUTCDate(utcNow);
      var stored := SetHttpClientOptions(ext, user);
      if stored.Err? {
        return Err(stored.error);
      }
      r := http.Send(GetRequest(path, options.value));
    }

    /**
     * `post($path, $options)` as written: the options are signed and stored,
     * but the request is sent without any of them.
     */
    method Post(ext: Externals, path: string, user: UserOptions, utcNow: string) returns (r: Result<Json>)
      modifies this, http
      ensures date == Some(utcNow) && action == old(action)
      ensures old(action).None? ==> r == Err(Uninitialized("action")) && http.sent == old(http.sent) && options == old(options)
      ensures old(action).Some? && !IsArray(BodyOf(user)) ==>
        r.Err? && r.error.TypeError? && http.sent == old(http.sent)
        && options == Some(MergedOptions(ext, config, old(action).value, utcNow, user))
      ensures old(action).Some? && IsArray(BodyOf(user)) ==>
        && options == Some(SignedOptions(ext, config, old(action).value, utcNow, user))
        && http.sent == old(http.sent) + [Request("POST", path, [], [], JNull, None)]
        && r == NextReply(old(http.replies))
    {
      SetUTCDate(utcNow);
      var stored := SetHttpClientOptions(ext, user);
      if stored.Err? {
        return Err(stored.error);
      }
      r := http.Send(Request("POST", path, [], [], JNull, None));
    }

    /**
     * `post` as evidently intended: the options are signed for the `POST` to
     * `path` that is actually sent, and the request carries them, as `get`
     * does.
     */
    method PostSigned(ext: Externals, path: string, user: UserOptions, utcNow: string) returns (r: Result<Json>)
      modifies this, http
      ensures date == Some(utcNow) && action == old(action)
      ensures old(action).None? ==> r == Err(Uninitialized("action")) && http.sent == old(http.sent) && options == old(options)
      ensures old(action).Some? && !IsArray(BodyOf(user)) ==>
        r.Err? && r.error.TypeError? && http.sent == old(http.sent)
        && options == Some(MergedOptions(ext, config, old(action).value, utcNow, user))
      ensures old(action).Some? && IsArray(BodyOf(user)) ==>
        var signed := SignedOptionsFor(ext, config, old(action).value, utcNow, user, "POST", path);
        && options == Some(signed)
        && http.sent == old(http.sent) + [OptionsRequest("POST", path, signed)]
        && r == NextReply(old(http.replies))
    {
      SetUTCDate(utcNow);
      var stored := SignOptions(ext, user, "POST", path);
      if stored.Err? {
        return Err(stored.error);
      }
      r := http.Send(OptionsRequest("POST", path, options.value));
    }
  }

  /** The request `PostSigned` sends verifies under the configured key pair, for every path, unless the caller sets a signed header. */
  lemma PostSignedRequestIsSigned(ext: Externals, config: map<string, Json>, action: string, date: string,
                                  user: UserOptions, path: string)
    requires DistinctKeys(user.headers)
    ensures SignedBy(ext, ConfigString(config, "ak"), ConfigString(config, "sk"),
                     OptionsRequest("POST", path, SignedOptionsFor(ext, config, action, date, user, "POST", path)))
            <==> LeavesSignedHeaders(user.headers)
  {
    SignedForRequestIsSigned(ext, config, action, date, user, "POST", path);
  }
}
