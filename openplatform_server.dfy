/**
 * The open-platform webhook server (`OpenPlatform\Server`).
 *
 * A request either carries a truthy `echostr`, which is echoed back, or a
 * message that runs through a pipeline of closures: the decryption step,
 * prepended by `serve`, and the handlers registered by `handleAuthorized` and
 * its siblings, each of which fires only for one `InfoType`. Every closure is
 * an object; `withoutHandler` removes a registered closure by identity.
 *
 * The handlers' own behaviour is a parameter `behave`: given a handler's id
 * and the message, it either answers or passes a message on to `$next`.
 */
module OpenPlatformServer {
  import opened Php
  import opened Kernel
  import opened DecryptXmlMessage

  const VerifyTicketInfoType := "component_verify_ticket"

  /** `fn (): mixed => $handler(...func_get_args())`: a closure forwarding to the handler `target`. */
  class ForwardingClosure {
    const target: nat

    constructor (target: nat)
      ensures this.target == target
    {
      this.target := target;
    }
  }

  /** A callable given to a `handle*` method: a user callable, or the forwarding closure above. */
  datatype Handler = UserHandler(id: nat) | Forwarding(closure: ForwardingClosure)

  /** The user handler a call of `h` ends up in. */
  function HandlerId(h: Handler): nat {
    match h
    case UserHandler(id) => id
    case Forwarding(c) => c.target
  }

  /** What a registered closure does with `($message, $next)`. */
  datatype Body =
    | DecryptStep(query: map<string, string>)     // `decryptRequestMessage()` over the captured query
    | OnInfoType(infoType: string, handler: Handler)  // `$message->InfoType === infoType ? $handler(...) : $next(...)`

  /** A closure registered in the pipeline. */
  class Middleware {
    const body: Body

    constructor (body: Body)
      ensures this.body == body
    {
      this.body := body;
    }
  }

  /** What a handler or the pipeline hands back: a PSR-7 response, or any other value. */
  datatype Reply = Response(status: int, text: string) | Value(v: Json)

  /** What a user handler does: answer, or call `$next` with a message. */
  datatype Step = Answer(reply: Reply) | Next(attrs: map<string, Json>)

  /** The end of a pipeline run: a reply, or the exception that escaped. */
  datatype Outcome = Replied(reply: Reply) | Failed(error: Error)

  /** The incoming request: its query parameters and `Message::createFromRequest` of it. */
  datatype ServerRequest = ServerRequest(query: map<string, string>, message: Result<map<string, Json>>)

  /** The response `serve` returns: a PSR-7 response, or the XML reply built from a handler's value. */
  datatype Served = Plain(status: int, text: string) | XmlReply(v: Json)

  /** `$query[$k] ?? ''`. */
  function QueryParam(query: map<string, string>, k: string): string {
    if k in query then query[k] else ""
  }

  /** `$message->InfoType`. */
  function InfoType(attrs: map<string, Json>): Json {
    Get(JMap(attrs), "InfoType")
  }

  /** `decryptMessage` with the signature, timestamp and nonce taken from `query`. */
  function DecryptWith(ext: Externals, enc: EncryptorConfig, query: map<string, string>,
                       attrs: map<string, Json>): Result<map<string, Json>> {
    DecryptOutcome(ext, attrs, enc, QueryParam(query, "signature"), QueryParam(query, "timestamp"),
                   QueryParam(query, "nonce"))
  }

  /**
   * `handle(new Response(200, [], 'success'), $message)`: the closures run in
   * order, each deciding whether to answer or to call the rest; past the last
   * one the default `200 success` response is the answer.
   */
  function Run(ext: Externals, enc: EncryptorConfig, hs: seq<Middleware>, attrs: map<string, Json>,
               behave: (nat, map<string, Json>) -> Step): Outcome
    decreases |hs|
  {
    if |hs| == 0 then Replied(Response(200, "success"))
    else match hs[0].body
      case DecryptStep(query) =>
        (match DecryptWith(ext, enc, query, attrs)
         case Err(e) => Failed(e)
         case Ok(decrypted) => Run(ext, enc, hs[1..], decrypted, behave))
      case OnInfoType(infoType, handler) =>
        if InfoType(attrs) == JStr(infoType) then
          match behave(HandlerId(handler), attrs)
          case Answer(reply) => Replied(reply)
          case Next(passed) => Run(ext, enc, hs[1..], passed, behave)
        else Run(ext, enc, hs[1..], attrs, behave)
  }

  /** The pipeline's result as `serve` returns it: a non-response value becomes an XML reply. */
  function Finish(o: Outcome): Result<Served> {
    match o
    case Failed(e) => Err(e)
    case Replied(Response(status, text)) => Ok(Plain(status, text))
    case Replied(Value(v)) => Ok(XmlReply(v))
  }

  /** `withoutHandler($handler)`: every registered closure that is `c` is dropped, the others keep their order. */
  function Without(hs: seq<Middleware>, c: object): (r: seq<Middleware>)
    ensures c !in r
    ensures |r| <= |hs|
    ensures forall i :: 0 <= i < |r| ==> r[i] in hs
    ensures forall i :: 0 <= i < |hs| && hs[i] != c ==> hs[i] in r
  {
    if |hs| == 0 then []
    else if hs[0] == c then Without(hs[1..], c)
    else [hs[0]] + Without(hs[1..], c)
  }

  /** Removing a closure that was never registered leaves the pipeline as it was. */
  lemma {:induction false} WithoutAbsent(hs: seq<Middleware>, c: object)
    requires c !in hs
    ensures Without(hs, c) == hs
  {
    if |hs| > 0 {
      WithoutAbsent(hs[1..], c);
      assert hs == [hs[0]] + hs[1..];
    }
  }

  /**
   * A forwarding closure is never itself a registered closure (only the
   * wrapper around it is), so removing it removes nothing.
   */
  lemma WithoutForwardingClosureRemovesNothing(hs: seq<Middleware>, c: ForwardingClosure)
    ensures Without(hs, c) == hs
  {
    WithoutAbsent(hs, c);
  }

  /** `getDecryptedMessage($request)`: the request's message, checked and decrypted with its own query. */
  function GetDecryptedMessage(ext: Externals, enc: EncryptorConfig, request: ServerRequest): (r: Result<map<string, Json>>)
    ensures request.message.Err? ==> r == Err(request.message.error)
    ensures request.message.Ok? && !("signature" in request.query) ==> r.Err?
    ensures r.Ok? ==> && request.message.Ok?
                      && var ciphertext := Ciphertext(request.message.value);
                         ciphertext.Some?
                         && QueryParam(request.query, "signature")
                            == ExpectedSignature(ext, enc.token, QueryParam(request.query, "timestamp"),
                                                 QueryParam(request.query, "nonce"), ciphertext.value)
  {
    match request.message
    case Err(e) => Err(e)
    case Ok(attrs) =>
      if Ciphertext(attrs).Some? && !("signature" in request.query) then
        EmptySignatureAlwaysRejected(ext, attrs, enc, "", QueryParam(request.query, "timestamp"),
                                     QueryParam(request.query, "nonce"));
        DecryptWith(ext, enc, request.query, attrs)
      else
        var d := DecryptWith(ext, enc, request.query, attrs);
        if d.Ok? then
          AcceptedMessageMerge(ext, attrs, enc, QueryParam(request.query, "signature"),
                               QueryParam(request.query, "timestamp"), QueryParam(request.query, "nonce"));
          d
        else d
  }

  /**
   * The decryption step decides before any handler: when the envelope is
   * rejected the run fails with that error whatever the handlers would do,
   * and when it is accepted the rest of the pipeline sees the decrypted
   * message.
   */
  lemma DecryptRunsFirst(ext: Externals, enc: EncryptorConfig, m: Middleware, hs: seq<Middleware>,
                         attrs: map<string, Json>, behave: (nat, map<string, Json>) -> Step,
                         other: (nat, map<string, Json>) -> Step)
    requires m.body.DecryptStep?
    ensures var d := DecryptWith(ext, enc, m.body.query, attrs);
      && (d.Err? ==> Run(ext, enc, [m] + hs, attrs, behave) == Run(ext, enc, [m] + hs, attrs, other) == Failed(d.error))
      && (d.Ok? ==> Run(ext, enc, [m] + hs, attrs, behave) == Run(ext, enc, hs, d.value, behave))
  {
    assert ([m] + hs)[1..] == hs;
  }

  /**
   * A request without a `signature` query parameter never reaches a handler:
   * the decryption step fails, with the empty-signature error when the message
   * carries a ciphertext.
   */
  lemma UnsignedRequestNeverHandled(ext: Externals, enc: EncryptorConfig, m: Middleware, hs: seq<Middleware>,
                                    attrs: map<string, Json>, behave: (nat, map<string, Json>) -> Step)
    requires m.body.DecryptStep? && !("signature" in m.body.query)
    ensures Run(ext, enc, [m] + hs, attrs, behave).Failed?
    ensures Ciphertext(attrs).Some? ==>
      Run(ext, enc, [m] + hs, attrs, behave) == Failed(BadRequest(EmptySignatureMessage))
  {
    EmptySignatureAlwaysRejected(ext, attrs, enc, "", QueryParam(m.body.query, "timestamp"),
                                 QueryParam(m.body.query, "nonce"));
  }

  /**
   * An `InfoType` filter calls its handler iff the message's `InfoType` is
   * exactly its own string; otherwise the message goes on unchanged.
   */
  lemma InfoTypeRouting(ext: Externals, enc: EncryptorConfig, m: Middleware, hs: seq<Middleware>,
                        attrs: map<string, Json>, behave: (nat, map<string, Json>) -> Step)
    requires m.body.OnInfoType?
    ensures InfoType(attrs) != JStr(m.body.infoType) ==>
      Run(ext, enc, [m] + hs, attrs, behave) == Run(ext, enc, hs, attrs, behave)
    ensures InfoType(attrs) == JStr(m.body.infoType) ==>
      var step := behave(HandlerId(m.body.handler), attrs);
      Run(ext, enc, [m] + hs, attrs, behave)
        == if step.Answer? then Replied(step.reply) else Run(ext, enc, hs, step.attrs, behave)
  {
    assert ([m] + hs)[1..] == hs;
  }

  /** With nothing registered to answer, the pipeline's answer is `200 success`. */
  lemma {:induction false} UnansweredRunSucceeds(ext: Externals, enc: EncryptorConfig, hs: seq<Middleware>,
                                                 attrs: map<string, Json>, behave: (nat, map<string, Json>) -> Step)
    requires forall i :: 0 <= i < |hs| ==> hs[i].body.OnInfoType? && InfoType(attrs) != JStr(hs[i].body.infoType)
    ensures Run(ext, enc, hs, attrs, behave) == Replied(Response(200, "success"))
  {
    if |hs| > 0 {
      UnansweredRunSucceeds(ext, enc, hs[1..], attrs, behave);
    }
  }

  /**
   * The pipeline `withDefaultVerifyTicketHandler($d)` followed by
   * `handleVerifyTicketRefreshed($u)` leaves behind as written: the default's
   * wrapper was not removed, so for a verify-ticket message the default
   * handler still runs first, and when it answers the replacement is never
   * consulted.
   */
  lemma DefaultVerifyTicketHandlerSurvives(ext: Externals, enc: EncryptorConfig, a: ForwardingClosure,
                                           w1: Middleware, w2: Middleware, u: nat,
                                           attrs: map<string, Json>, behave: (nat, map<string, Json>) -> Step)
    requires w1.body == OnInfoType(VerifyTicketInfoType, Forwarding(a))
    requires w2.body == OnInfoType(VerifyTicketInfoType, UserHandler(u))
    requires InfoType(attrs) == JStr(VerifyTicketInfoType) && behave(a.target, attrs).Answer?
    ensures w1 in Without([w1], a) + [w2]
    ensures Run(ext, enc, Without([w1], a) + [w2], attrs, behave) == Replied(behave(a.target, attrs).reply)
  {
    WithoutForwardingClosureRemovesNothing([w1], a);
  }

  /**
   * The same two calls with the wrapper removed, as intended: only the
   * replacement handler is consulted for a verify-ticket message.
   */
  lemma ReplacedVerifyTicketHandlerIsGone(ext: Externals, enc: EncryptorConfig, a: ForwardingClosure,
                                          w1: Middleware, w2: Middleware, u: nat,
                                          attrs: map<string, Json>, behave: (nat, map<string, Json>) -> Step)
    requires w1.body == OnInfoType(VerifyTicketInfoType, Forwarding(a))
    requires w2.body == OnInfoType(VerifyTicketInfoType, UserHandler(u))
    requires InfoType(attrs) == JStr(VerifyTicketInfoType) && w1 != w2
    ensures w1 !in Without([w1], w1) + [w2]
    ensures var step := behave(u, attrs);
      Run(ext, enc, Without([w1], w1) + [w2], attrs, behave)
        == if step.Answer? then Replied(step.reply) else Run(ext, enc, [], step.attrs, behave)
  {
    assert Without([w1], w1) == [];
    assert Without([w1], w1) + [w2] == [w2];
    assert [w2] == [w2] + [];
    InfoTypeRouting(ext, enc, w2, [], attrs, behave);
  }

  class Server {
    const encryptor: Encryptor
    const request: ServerRequest
    var handlers: seq<Middleware>
    var defaultVerifyTicketHandler: Option<ForwardingClosure>
    /** The registered wrapper of the default verify-ticket handler, kept by the corrected registration. */
    var defaultVerifyTicketWrapper: Option<Middleware>

    constructor (encryptor: Encryptor, request: ServerRequest)
      ensures this.encryptor == encryptor && this.request == request
      ensures handlers == [] && defaultVerifyTicketHandler.None? && defaultVerifyTicketWrapper.None?
    {
      this.encryptor := encryptor;
      this.request := request;
      handlers := [];
      defaultVerifyTicketHandler := None;
      defaultVerifyTicketWrapper := None;
    }

    /** `with($closure)`: registers a new closure after the existing ones. */
    method With(body: Body) returns (m: Middleware)
      modifies this
      ensures fresh(m) && m.body == body
      ensures handlers == old(handlers) + [m]
      ensures defaultVerifyTicketHandler == old(defaultVerifyTicketHandler)
      ensures defaultVerifyTicketWrapper == old(defaultVerifyTicketWrapper)
    {
      m := new Middleware(body);
      handlers := handlers + [m];
    }

    /** `prepend($closure)`: registers a new closure before the existing ones. */
    method Prepend(body: Body) returns (m: Middleware)
      modifies this
      ensures fresh(m) && m.body == body
      ensures handlers == [m] + old(handlers)
      ensures defaultVerifyTicketHandler == old(defaultVerifyTicketHandler)
      ensures defaultVerifyTicketWrapper == old(defaultVerifyTicketWrapper)
    {
      m := new Middleware(body);
      handlers := [m] + handlers;
    }

    /** `withoutHandler($c)`. */
    method WithoutHandler(c: object)
      modifies this
      ensures handlers == Without(old(handlers), c)
      ensures defaultVerifyTicketHandler == old(defaultVerifyTicketHandler)
      ensures defaultVerifyTicketWrapper == old(defaultVerifyTicketWrapper)
    {
      handlers := Without(handlers, c);
    }

    /** `handleAuthorized($handler)`. */
    method HandleAuthorized(handler: Handler)
      modifies this
      ensures |handlers| == |old(handlers)| + 1 && handlers[..|old(handlers)|] == old(handlers)
      ensures fresh(handlers[|old(handlers)|]) && handlers[|old(handlers)|].body == OnInfoType("authorized", handler)
      ensures defaultVerifyTicketHandler == old(defaultVerifyTicketHandler)
      ensures defaultVerifyTicketWrapper == old(defaultVerifyTicketWrapper)
    {
      var _ := With(OnInfoType("authorized", handler));
    }

    /** `handleUnauthorized($handler)`. */
    method HandleUnauthorized(handler: Handler)
      modifies this
      ensures |handlers| == |old(handlers)| + 1 && handlers[..|old(handlers)|] == old(handlers)
      ensures fresh(handlers[|old(handlers)|]) && handlers[|old(handlers)|].body == OnInfoType("unauthorized", handler)
      ensures defaultVerifyTicketHandler == old(defaultVerifyTicketHandler)
      ensures defaultVerifyTicketWrapper == old(defaultVerifyTicketWrapper)
    {
      var _ := With(OnInfoType("unauthorized", handler));
    }

    /** `handleAuthorizeUpdated($handler)`. */
    method HandleAuthorizeUpdated(handler: Handler)
      modifies this
      ensures |handlers| == |old(handlers)| + 1 && handlers[..|old(handlers)|] == old(handlers)
      ensures fresh(handlers[|old(handlers)|]) && handlers[|old(handlers)|].body == OnInfoType("updateauthorized", handler)
      ensures defaultVerifyTicketHandler == old(defaultVerifyTicketHandler)
      ensures defaultVerifyTicketWrapper == old(defaultVerifyTicketWrapper)
    {
      var _ := With(OnInfoType("updateauthorized", handler));
    }

    /**
     * `handleVerifyTicketRefreshed($handler)` as written: it asks to remove the
     * default handler's forwarding closure, which is never registered itself,
     * so nothing is removed before the new filter is appended.
     */
    method HandleVerifyTicketRefreshed(handler: Handler)
      modifies this
      ensures |handlers| == |old(handlers)| + 1 && handlers[..|old(handlers)|] == old(handlers)
      ensures fresh(handlers[|old(handlers)|]) && handlers[|old(handlers)|].body == OnInfoType(VerifyTicketInfoType, handler)
      ensures defaultVerifyTicketHandler == old(defaultVerifyTicketHandler)
      ensures defaultVerifyTicketWrapper == old(defaultVerifyTicketWrapper)
    {
      if defaultVerifyTicketHandler.Some? {
        WithoutForwardingClosureRemovesNothing(handlers, defaultVerifyTicketHandler.value);
        WithoutHandler(defaultVerifyTicketHandler.value);
      }
      var _ := With(OnInfoType(VerifyTicketInfoType, handler));
    }

    /**
     * `withDefaultVerifyTicketHandler($handler)` as written: a fresh forwarding
     * closure becomes the default and is registered through its wrapper; any
     * earlier default's wrapper stays registered too.
     */
    method WithDefaultVerifyTicketHandler(target: nat)
      modifies this
      ensures defaultVerifyTicketHandler.Some? && fresh(defaultVerifyTicketHandler.value)
      ensures defaultVerifyTicketHandler.value.target == target
      ensures |handlers| == |old(handlers)| + 1 && handlers[..|old(handlers)|] == old(handlers)
      ensures fresh(handlers[|old(handlers)|])
      ensures handlers[|old(handlers)|].body == OnInfoType(VerifyTicketInfoType, Forwarding(defaultVerifyTicketHandler.value))
      ensures defaultVerifyTicketWrapper == old(defaultVerifyTicketWrapper)
    {
      var closure := new ForwardingClosure(target);
      defaultVerifyTicketHandler := Some(closure);
      HandleVerifyTicketRefreshed(Forwarding(closure));
    }

    /** `handleVerifyTicketRefreshed($handler)` as intended: the default's registered wrapper is removed first. */
    method HandleVerifyTicketRefreshedCorrected(handler: Handler)
      modifies this
      ensures var kept := if old(defaultVerifyTicketWrapper).Some?
                          then Without(old(handlers), old(defaultVerifyTicketWrapper).value) else old(handlers);
        |handlers| == |kept| + 1 && handlers[..|kept|] == kept
      ensures fresh(handlers[|handlers| - 1]) && handlers[|handlers| - 1].body == OnInfoType(VerifyTicketInfoType, handler)
      ensures old(defaultVerifyTicketWrapper).Some? ==> old(defaultVerifyTicketWrapper).value !in handlers
      ensures defaultVerifyTicketHandler == old(defaultVerifyTicketHandler)
      ensures defaultVerifyTicketWrapper == old(defaultVerifyTicketWrapper)
    {
      if defaultVerifyTicketWrapper.Some? {
        WithoutHandler(defaultVerifyTicketWrapper.value);
      }
      var _ := With(OnInfoType(VerifyTicketInfoType, handler));
    }

    /**
     * `withDefaultVerifyTicketHandler($handler)` as intended: an earlier
     * default's wrapper is removed, and the new wrapper is remembered so a
     * later `handleVerifyTicketRefreshed` can remove it.
     */
    method WithDefaultVerifyTicketHandlerCorrected(target: nat)
      modifies this
      ensures defaultVerifyTicketHandler.Some? && fresh(defaultVerifyTicketHandler.value)
      ensures defaultVerifyTicketHandler.value.target == target
      ensures defaultVerifyTicketWrapper.Some? && fresh(defaultVerifyTicketWrapper.value)
      ensures var kept := if old(defaultVerifyTicketWrapper).Some?
                          then Without(old(handlers), old(defaultVerifyTicketWrapper).value) else old(handlers);
        handlers == kept + [defaultVerifyTicketWrapper.value]
      ensures defaultVerifyTicketWrapper.value.body
              == OnInfoType(VerifyTicketInfoType, Forwarding(defaultVerifyTicketHandler.value))
      ensures old(defaultVerifyTicketWrapper).Some? ==> old(defaultVerifyTicketWrapper).value !in handlers
    {
      var closure := new ForwardingClosure(target);
      defaultVerifyTicketHandler := Some(closure);
      if defaultVerifyTicketWrapper.Some? {
        WithoutHandler(defaultVerifyTicketWrapper.value);
      }
      var wrapper := With(OnInfoType(VerifyTicketInfoType, Forwarding(closure)));
      defaultVerifyTicketWrapper := Some(wrapper);
    }

    /**
     * `serve()`: a truthy `echostr` is answered as is, without reading the
     * message or touching the pipeline; otherwise the message is read, the
     * decryption step is prepended and the pipeline's result is returned.
     */
    method Serve(ext: Externals, behave: (nat, map<string, Json>) -> Step) returns (r: Result<Served>)
      modifies this
      ensures var echo := QueryParam(request.query, "echostr");
        !EmptyStr(echo) ==> r == Ok(Plain(200, echo)) && handlers == old(handlers)
      ensures EmptyStr(QueryParam(request.query, "echostr")) && request.message.Err? ==>
        r == Err(request.message.error) && handlers == old(handlers)
      ensures EmptyStr(QueryParam(request.query, "echostr")) && request.message.Ok? ==>
        && |handlers| == |old(handlers)| + 1 && handlers[1..] == old(handlers)
        && fresh(handlers[0]) && handlers[0].body == DecryptStep(request.query)
        && r == Finish(Run(ext, encryptor.config, handlers, request.message.value, behave))
      ensures defaultVerifyTicketHandler == old(defaultVerifyTicketHandler)
      ensures defaultVerifyTicketWrapper == old(defaultVerifyTicketWrapper)
    {
      var echo := QueryParam(request.query, "echostr");
      if !EmptyStr(echo) {
        return Ok(Plain(200, echo));
      }
      if request.message.Err? {
        return Err(request.message.error);
      }
      var _ := Prepend(DecryptStep(request.query));
      r := Finish(Run(ext, encryptor.config, handlers, request.message.value, behave));
    }
  }
}
