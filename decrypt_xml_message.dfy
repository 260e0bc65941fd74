/**
 * The webhook envelope check and decryption (the `DecryptXmlMessage` trait).
 *
 * An inbound callback carries `signature`, `timestamp` and `nonce` in its
 * query string and the ciphertext in the `Encrypt` field of its body. The
 * signature must equal the SHA-1 of the token, timestamp, nonce and ciphertext
 * sorted as strings and concatenated; only then is the ciphertext decrypted
 * and the parsed fields merged into the message.
 */
module DecryptXmlMessage {
  import opened Php
  import opened PhpSort
  import opened Kernel

  /** `implode($parts)`: concatenation without separator. */
  function Concat(parts: seq<string>): string {
    if |parts| == 0 then "" else parts[0] + Concat(parts[1..])
  }

  /** The sort key of `sort(..., SORT_STRING)`: the string itself. */
  function Identity(s: string): string {
    s
  }

  /** The signature a genuine sender attaches: SHA-1 over the sorted, concatenated values. */
  function ExpectedSignature(ext: Externals, token: string, timestamp: string, nonce: string, ciphertext: string): string {
    ext.sha1(Concat(SortBy([token, timestamp, nonce, ciphertext], Identity)))
  }

  const EmptySignatureMessage := "Request signature must not be empty."
  const InvalidSignatureMessage := "Invalid request signature."

  /** `validateSignature`: Ok(()) when the envelope is genuine, otherwise the BadRequest it throws. */
  function ValidateSignature(ext: Externals, token: string, ciphertext: string, signature: string,
                             timestamp: string, nonce: string): (r: Result<()>)
    ensures EmptyStr(signature) ==> r == Err(BadRequest(EmptySignatureMessage))
    ensures r.Ok? <==> !EmptyStr(signature) && signature == ExpectedSignature(ext, token, timestamp, nonce, ciphertext)
    ensures r.Err? ==> r.error.BadRequest?
  {
    if EmptyStr(signature) then Err(BadRequest(EmptySignatureMessage))
    else
      var params := SortBy([token, timestamp, nonce, ciphertext], Identity);
      if signature != ext.sha1(Concat(params)) then Err(BadRequest(InvalidSignatureMessage))
      else Ok(())
  }

  /**
   * The order in which the four values are supplied does not matter: for any
   * arrangement `xs` of them, the envelope is accepted iff the signature is
   * the SHA-1 of `xs` sorted and concatenated.
   */
  lemma ValidateSignatureIgnoresOrder(ext: Externals, token: string, ciphertext: string, signature: string,
                                      timestamp: string, nonce: string, xs: seq<string>)
    requires multiset(xs) == multiset([token, timestamp, nonce, ciphertext])
    ensures ValidateSignature(ext, token, ciphertext, signature, timestamp, nonce).Ok?
        <==> !EmptyStr(signature) && signature == ext.sha1(Concat(SortBy(xs, Identity)))
  {
    SortByIgnoresOrder(xs, [token, timestamp, nonce, ciphertext], Identity);
  }

  /**
   * The concatenation that is hashed is an ordered arrangement of exactly the
   * four values: what a platform that sorts the same values produces.
   */
  lemma SignedStringIsSortedArrangement(token: string, timestamp: string, nonce: string, ciphertext: string)
    ensures var sorted := SortBy([token, timestamp, nonce, ciphertext], Identity);
      && multiset(sorted) == multiset([token, timestamp, nonce, ciphertext])
      && forall i, j :: 0 <= i < j < |sorted| ==> StrLe(sorted[i], sorted[j])
  {
    SortByCorrect([token, timestamp, nonce, ciphertext], Identity);
  }

  /** The message object handlers read; `merge` overwrites and adds attributes. */
  class Message {
    var attrs: map<string, Json>

    constructor (attrs: map<string, Json>)
      ensures this.attrs == attrs
    {
      this.attrs := attrs;
    }

    /** `$message->merge($fields)`: later values win. */
    method Merge(fields: map<string, Json>)
      modifies this
      ensures attrs == old(attrs) + fields
    {
      attrs := attrs + fields;
    }
  }

  /** `$message->Encrypt` passed to the `string $ciphertext` parameter. */
  function Ciphertext(attrs: map<string, Json>): Option<string> {
    CoerceToString(Get(JMap(attrs), "Encrypt"))
  }

  /**
   * What `decryptMessage` makes of a message with attributes `attrs`: the
   * attributes after the merge, or the error it throws.
   */
  function DecryptOutcome(ext: Externals, attrs: map<string, Json>, enc: EncryptorConfig,
                          signature: string, timestamp: string, nonce: string): Result<map<string, Json>> {
    match Ciphertext(attrs)
    case None => Err(TypeError("Argument #2 ($ciphertext) must be of type string"))
    case Some(ciphertext) =>
      match ValidateSignature(ext, enc.token, ciphertext, signature, timestamp, nonce)
      case Err(e) => Err(e)
      case Ok(_) =>
        match ext.decrypt(enc, ciphertext, signature, nonce, timestamp)
        case None => Err(Runtime("decryption failed"))
        case Some(plaintext) =>
          var parsed := ext.xmlParse(plaintext);
          Ok(attrs + if parsed.Some? then parsed.value else map[])
  }

  /**
   * `decryptMessage`: validates the envelope built from the message's own
   * `Encrypt` field, decrypts that same ciphertext, merges the parsed fields
   * (or nothing when parsing yields null) into the message and returns the
   * same message object. When it throws, the message is left as it was.
   */
  method DecryptMessage(ext: Externals, message: Message, encryptor: Encryptor,
                        signature: string, timestamp: string, nonce: string) returns (r: Result<Message>)
    modifies message
    ensures var outcome := DecryptOutcome(ext, old(message.attrs), encryptor.config, signature, timestamp, nonce);
      && (outcome.Ok? ==> r == Ok(message) && message.attrs == outcome.value)
      && (outcome.Err? ==> r == Err(outcome.error) && message.attrs == old(message.attrs))
  {
    var ciphertext := Ciphertext(message.attrs);
    if ciphertext.None? {
      return Err(TypeError("Argument #2 ($ciphertext) must be of type string"));
    }
    var check := ValidateSignature(ext, encryptor.Token(), ciphertext.value, signature, timestamp, nonce);
    if check.Err? {
      return Err(check.error);
    }
    var plaintext := ext.decrypt(encryptor.config, ciphertext.value, signature, nonce, timestamp);
    if plaintext.None? {
      return Err(Runtime("decryption failed"));
    }
    var parsed := ext.xmlParse(plaintext.value);
    message.Merge(if parsed.Some? then parsed.value else map[]);
    r := Ok(message);
  }

  /**
   * A rejected envelope is never decrypted: when validation fails, the outcome
   * is that failure whatever the cipher and the parser would have done.
   */
  lemma RejectedEnvelopeIsNeverDecrypted(ext: Externals, attrs: map<string, Json>, enc: EncryptorConfig,
                                         signature: string, timestamp: string, nonce: string,
                                         decrypt: (EncryptorConfig, string, string, string, string) -> Option<string>,
                                         xmlParse: string -> Option<map<string, Json>>)
    requires Ciphertext(attrs).Some?
    requires ValidateSignature(ext, enc.token, Ciphertext(attrs).value, signature, timestamp, nonce).Err?
    ensures DecryptOutcome(ext.(decrypt := decrypt, xmlParse := xmlParse), attrs, enc, signature, timestamp, nonce)
         == DecryptOutcome(ext, attrs, enc, signature, timestamp, nonce)
         == Err(ValidateSignature(ext, enc.token, Ciphertext(attrs).value, signature, timestamp, nonce).error)
  {
  }

  /**
   * On success the signature was valid for the `Encrypt` field, that same
   * ciphertext was decrypted, every parsed field took its parsed value and
   * every other attribute kept its old value.
   */
  lemma AcceptedMessageMerge(ext: Externals, attrs: map<string, Json>, enc: EncryptorConfig,
                             signature: string, timestamp: string, nonce: string)
    requires DecryptOutcome(ext, attrs, enc, signature, timestamp, nonce).Ok?
    ensures Ciphertext(attrs).Some?
    ensures var ciphertext := Ciphertext(attrs).value;
      && !EmptyStr(signature)
      && signature == ExpectedSignature(ext, enc.token, timestamp, nonce, ciphertext)
      && ext.decrypt(enc, ciphertext, signature, nonce, timestamp).Some?
      && var parsed := ext.xmlParse(ext.decrypt(enc, ciphertext, signature, nonce, timestamp).value);
         var merged := DecryptOutcome(ext, attrs, enc, signature, timestamp, nonce).value;
         && merged.Keys == attrs.Keys + (if parsed.Some? then parsed.value.Keys else {})
         && (forall k :: parsed.Some? && k in parsed.value ==> merged[k] == parsed.value[k])
         && (forall k :: k in attrs && !(parsed.Some? && k in parsed.value) ==> merged[k] == attrs[k])
  {
  }

  /** An empty signature (`""` or `"0"`) is refused whatever the message holds, before any decryption. */
  lemma EmptySignatureAlwaysRejected(ext: Externals, attrs: map<string, Json>, enc: EncryptorConfig,
                                     signature: string, timestamp: string, nonce: string)
    requires EmptyStr(signature)
    ensures DecryptOutcome(ext, attrs, enc, signature, timestamp, nonce).Err?
    ensures Ciphertext(attrs).Some? ==>
      DecryptOutcome(ext, attrs, enc, signature, timestamp, nonce) == Err(BadRequest(EmptySignatureMessage))
  {
  }
}
