/** What the server's domain code needs from its runtime: the exceptions it
    raises and the foreign primitives it calls, passed in as plain functions
    so that every operation stays a pure function of its inputs. */
module ServerRuntime {
  import opened Wrappers
  import opened Hex

  /** The exceptions the domain code raises. `DecodeError` stands for the
      `binascii.Error` raised by base64 decoding and `MalformedHex` for the
      error `bytes.fromhex` raises, both `ValueError`s whose wording is not
      modelled; the last three are the web framework's HTTP exceptions. */
  datatype Exception =
    | ValueError(message: string)
    | DecodeError
    | MalformedHex
    | NotFound(message: string)
    | MethodNotAllowed(message: string)
    | ClientError(message: string)

  /** Whether an `except ValueError` clause catches the exception. */
  predicate IsValueError(e: Exception)
  {
    e.ValueError? || e.DecodeError? || e.MalformedHex?
  }

  /** The standard-library functions the domain code relies on, each
      deterministic: `mimetypes.guess_extension`, `base64.b64decode`
      (None when it raises), `str.encode()` and salted PBKDF2-HMAC-SHA256
      with 500000 rounds. */
  datatype Primitives = Primitives(
    guessExtension: string -> Option<string>,
    b64decode: string -> Option<seq<byte>>,
    utf8: string -> seq<byte>,
    pbkdf2: (seq<byte>, seq<byte>) -> seq<byte>)

  /** A point in time as the clock reports it. */
  type Timestamp = int
}
