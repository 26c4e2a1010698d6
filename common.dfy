/** Values shared by every adapter: optional values, results carrying the
    Python exception an operation raises, opaque file contents, and the
    decimal rendering of a natural number (Python's `str(i)`). */
module Common {

  datatype Option<+T> = None | Some(value: T) {
    function GetOr(default: T): T {
      match this
      case Some(v) => v
      case None => default
    }
  }

  /** The exception an operation lets escape to its caller. */
  datatype Error =
    | ValueError(reason: string)      // configuration errors and foreign URLs
    | IndexError                      // a URL path without a second segment
    | AttributeError                  // `.get` on a non-object JSON value, or a `MediaFile` method on a raw file argument
    | JsonDecodeError                 // `response.json()` on a body that is not JSON
    | SdkError                        // any other exception raised by the blob SDK
    | TransportError                  // the HTTP client could not complete the request
    | InvalidUrl                      // the HTTP client refuses a URL that is not a string
    | UploadFailed(reason: string)    // the bare `Exception` raised by the REST adapters

  /** Success with a value, or the exception that escaped. */
  datatype Result<+T> = Ok(value: T) | Err(error: Error)

  /** Success without a value, or the exception that escaped. */
  datatype Outcome = Pass | Fail(error: Error)

  type Bytes = seq<bv8>

  /** The canonical file value; only its bytes matter to this layer. */
  datatype MediaFile = MediaFile(data: Bytes)

  /** What `download` hands back: the loaded file, or the path it was saved to. */
  datatype Downloaded = File(file: MediaFile) | SavedTo(path: string)

  /** Python truthiness of an optional string: `None` and `""` are falsy. */
  predicate Truthy(s: Option<string>) {
    s.Some? && s.value != ""
  }

  function DigitChar(d: nat): (c: char)
    requires d < 10
    ensures '0' <= c <= '9' && c as int - '0' as int == d
  {
    "0123456789"[d]
  }

  /** `str(n)` for a natural number: its decimal digits, without leading zeros. */
  function DecimalString(n: nat): (s: string)
    ensures 1 <= |s|
    ensures forall k :: 0 <= k < |s| ==> '0' <= s[k] <= '9'
    ensures n < 10 <==> |s| == 1
    ensures 1 < |s| ==> s[0] != '0'
    decreases n
  {
    if n < 10 then [DigitChar(n)] else DecimalString(n / 10) + [DigitChar(n % 10)]
  }

  /** Different numbers have different decimal strings. */
  lemma {:induction false} DecimalStringInjective(m: nat, n: nat)
    requires DecimalString(m) == DecimalString(n)
    ensures m == n
    decreases m
  {
    var s := DecimalString(m);
    if m < 10 || n < 10 {
      assert m < 10 && n < 10;
      assert DigitChar(m) == s[0] == DigitChar(n);
    } else {
      assert s[|s| - 1] == DigitChar(m % 10) == DigitChar(n % 10);
      assert DecimalString(m / 10) == s[..|s| - 1] == DecimalString(n / 10);
      DecimalStringInjective(m / 10, n / 10);
    }
  }
}
