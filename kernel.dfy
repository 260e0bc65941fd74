/**
 * Shared kernel of the model: the errors the library raises, a result type
 * for operations that can throw, the primitives the library calls but whose
 * bodies are not modelled (hashes, HMAC, hex decoding, JSON encoding, XML
 * parsing, AES decryption), and the `Encryptor` whose token and keys the
 * webhook check uses.
 */
module Kernel {
  import opened Php

  /** The exceptions and PHP errors the modelled code can end with. */
  datatype Error =
    | BadRequest(message: string)        // BadRequestException
    | Http(message: string)              // HttpException, message ends with the JSON-encoded response
    | InvalidConfig(message: string)     // InvalidConfigException
    | Runtime(message: string)           // RuntimeException raised by the Encryptor
    | TypeError(message: string)         // PHP TypeError (strict return types, string parameters)
    | UnknownNamedParameter(name: string)  // PHP Error: a named argument the callee does not declare
    | Uninitialized(property: string)    // PHP Error: a typed property read before it is assigned
    | Transport                          // the transport failed: no reply to decode

  /** The value of an operation, or the exception it throws. */
  datatype Result<T> = Ok(value: T) | Err(error: Error)

  /** The constructor arguments of an `Encryptor`. */
  datatype EncryptorConfig = EncryptorConfig(appId: string, token: string, aesKey: string, receiveId: string)

  /**
   * Functions the core calls whose definitions are outside the model. Each is
   * an arbitrary function, so every property proved holds whatever they compute.
   */
  datatype Externals = Externals(
    sha1: string -> string,                  // lower-case hex SHA-1
    sha256: string -> string,                // lower-case hex SHA-256 (`hash("sha256", ...)`)
    hmacSha256: (string, string) -> string,  // (key, content) to lower-case hex HMAC-SHA256
    hex2bin: string -> string,
    md5: string -> string,
    jsonEncode: Json -> string,
    xmlParse: string -> Option<map<string, Json>>,
    // Encryptor::decrypt(ciphertext, msgSignature, nonce, timestamp); None when it throws
    decrypt: (EncryptorConfig, string, string, string, string) -> Option<string>
  )

  /**
   * `$config->get($path, $default)` on the configuration repository: a dotted
   * key descends through nested arrays, and the default is used only when a
   * segment is missing (a present null stays null).
   */
  function ConfigGet(config: map<string, Json>, path: seq<string>, default: Json): (r: Json)
    ensures |path| == 1 && path[0] in config ==> r == config[path[0]]
    ensures |path| > 0 && path[0] !in config ==> r == default
    ensures |path| > 1 && path[0] in config && !config[path[0]].JMap? ==> r == default
    ensures |path| == 2 && path[0] in config && config[path[0]].JMap? ==>
      r == (if path[1] in config[path[0]].fields then config[path[0]].fields[path[1]] else default)
    decreases |path|
  {
    if |path| == 0 then JMap(config)
    else if path[0] !in config then default
    else if |path| == 1 then config[path[0]]
    else match config[path[0]]
      case JMap(inner) => ConfigGet(inner, path[1..], default)
      case _ => default
  }

  /** The webhook cipher object; only its identity and configuration matter here. */
  class Encryptor {
    const config: EncryptorConfig

    constructor (config: EncryptorConfig)
      ensures this.config == config
    {
      this.config := config;
    }

    /** `Encryptor::getToken()`: the token the webhook signature is computed with. */
    function Token(): string {
      config.token
    }
  }
}
