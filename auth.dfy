/** The message authenticator shared by the server and the lock controller:
    HMAC-SHA256 (RFC 2104 over the hash of FIPS 180-4) in hexadecimal, and the
    `payload|tag` envelope every signed message travels in.  The keyed hash
    itself is not modelled: `mac` is an arbitrary function of the secret and
    the payload, so every property below holds for any such function. */
module Auth {
  import opened Text

  newtype byte = x: int | 0 <= x < 256

  /** The shared secret and the keyed hash.  `mac(secret, payload)` stands for
      `hmac.new(secret.encode(), payload.encode(), hashlib.sha256).digest()`;
      UTF-8 encoding is injective, so a function of the text is a function of
      its bytes. */
  datatype Authenticator = Authenticator(secret: string, mac: (string, string) -> seq<byte>)

  const HexDigits: string := "0123456789abcdef"

  predicate IsHexChar(c: char) { c in HexDigits }

  function HexByte(b: byte): (h: string)
    ensures |h| == 2 && IsHexChar(h[0]) && IsHexChar(h[1])
  {
    [HexDigits[b / 16], HexDigits[b % 16]]
  }

  /** `.hexdigest()`: two lower-case hexadecimal digits per byte. */
  function Hexdigest(d: seq<byte>): (h: string)
    ensures |h| == 2 * |d|
    ensures forall k :: 0 <= k < |h| ==> IsHexChar(h[k])
  {
    if d == [] then [] else HexByte(d[0]) + Hexdigest(d[1..])
  }

  function HexValue(c: char): nat
  {
    if '0' <= c <= '9' then c as int - '0' as int
    else if 'a' <= c <= 'f' then c as int - 'a' as int + 10
    else 0
  }

  /** Reads a hexadecimal text back into bytes. */
  function Unhex(h: string): seq<byte>
    decreases |h|
  {
    if |h| < 2 then []
    else
      var v := 16 * HexValue(h[0]) + HexValue(h[1]);
      (if v < 256 then [v as byte] else [0 as byte]) + Unhex(h[2..])
  }

  lemma HexByteRoundTrip(b: byte)
    ensures HexValue(HexByte(b)[0]) == b as int / 16 && HexValue(HexByte(b)[1]) == b as int % 16
  {
    var hi, lo := b as int / 16, b as int % 16;
    assert HexValue(HexDigits[hi]) == hi by {
      if hi < 10 { assert HexDigits[hi] == "0123456789"[hi]; }
    }
    assert HexValue(HexDigits[lo]) == lo by {
      if lo < 10 { assert HexDigits[lo] == "0123456789"[lo]; }
    }
  }

  /** The hexadecimal rendering loses nothing, so comparing tags compares digests. */
  lemma {:induction false} HexdigestRoundTrip(d: seq<byte>)
    ensures Unhex(Hexdigest(d)) == d
  {
    if d != [] {
      HexdigestRoundTrip(d[1..]);
      HexByteRoundTrip(d[0]);
      var h := Hexdigest(d);
      assert h[2..] == Hexdigest(d[1..]);
      assert h[0] == HexByte(d[0])[0] && h[1] == HexByte(d[0])[1];
      assert 16 * HexValue(h[0]) + HexValue(h[1]) == d[0] as int;
      assert Unhex(h) == [d[0]] + Unhex(h[2..]);
      assert [d[0]] + d[1..] == d;
    }
  }

  lemma HexdigestInjective(d1: seq<byte>, d2: seq<byte>)
    requires Hexdigest(d1) == Hexdigest(d2)
    ensures d1 == d2
  {
    HexdigestRoundTrip(d1);
    HexdigestRoundTrip(d2);
  }

  /** The tag of a payload: `hmac.new(secret, payload, sha256).hexdigest()`. */
  function Sign(a: Authenticator, payload: string): string {
    Hexdigest(a.mac(a.secret, payload))
  }

  /** `validate_hmac`, computed over the payload's bytes: the recomputed tag equals the received one. */
  predicate ValidateHmac(a: Authenticator, payload: string, tag: string) {
    Sign(a, payload) == tag
  }

  /** `f"{payload}|{tag}"` */
  function Envelope(payload: string, tag: string): string { payload + "|" + tag }

  /** The signed form of a payload. */
  function Seal(a: Authenticator, payload: string): string { Envelope(payload, Sign(a, payload)) }

  /** `payload, tag = text.split("|")`: exactly two fields, or a ValueError. */
  function OpenEnvelope(text: string): (r: Option<(string, string)>)
    ensures r.Some? ==> '|' !in r.value.0 && '|' !in r.value.1
    ensures r.Some? ==> text == Envelope(r.value.0, r.value.1)
  {
    var parts := Split(text, '|');
    if |parts| == 2 then
      JoinSplit(text, '|');
      assert parts[1..] == [parts[1]];
      Some((parts[0], parts[1]))
    else None
  }

  /** What unpacking `text.split("|")` into two names raises: a ValueError
      unless the text has exactly two fields. */
  function UnpackError(text: string): (e: Option<PyError>)
    ensures e.None? <==> OpenEnvelope(text).Some?
  {
    if OpenEnvelope(text).Some? then None else Some(ValueError)
  }

  /** A text without a bar, such as a status line or a JSON report, raises. */
  lemma BarlessTextRaises(text: string)
    requires '|' !in text
    ensures UnpackError(text) == Some(ValueError)
  {
    SplitNoSep(text, '|');
  }

  /** A text with two bars or more raises too. */
  lemma TwoBarsRaise(a: string, b: string, c: string)
    requires '|' !in a && '|' !in b
    ensures UnpackError(a + "|" + b + "|" + c) == Some(ValueError)
  {
    var t := a + "|" + b + "|" + c;
    assert t == a + ['|'] + (b + ['|'] + c);
    SplitFirst(a, b + ['|'] + c, '|');
    SplitFirst(b, c, '|');
  }

  /** An envelope of two bar-free fields does not. */
  lemma EnvelopeUnpacks(payload: string, tag: string)
    requires '|' !in payload && '|' !in tag
    ensures UnpackError(Envelope(payload, tag)) == None
  {
    SplitTwo(payload, tag, '|');
  }

  /** A tag holds no `|`. */
  lemma SignHasNoBar(a: Authenticator, payload: string)
    ensures '|' !in Sign(a, payload)
  {
    var t := Sign(a, payload);
    forall k | 0 <= k < |t|
      ensures t[k] != '|'
    {
      assert IsHexChar(t[k]);
    }
  }

  /** A sealed payload without `|` opens to itself and its tag, and the tag validates. */
  lemma SealOpens(a: Authenticator, payload: string)
    requires '|' !in payload
    ensures OpenEnvelope(Seal(a, payload)) == Some((payload, Sign(a, payload)))
    ensures ValidateHmac(a, payload, Sign(a, payload))
  {
    SignHasNoBar(a, payload);
    SplitTwo(payload, Sign(a, payload), '|');
  }

  /** A tag that differs from the recomputed one is refused: forging needs the keyed hash. */
  lemma ForgedTagRefused(a: Authenticator, payload: string, tag: string)
    requires tag != Sign(a, payload)
    ensures !ValidateHmac(a, payload, tag)
  {
  }

  // ---------------------------------------------------------------------
  // validate_hmac as written: `hmac.new(key, payload, sha256)` with a str payload

  /** The message argument `hmac.new` receives: a decoded `str`, or encoded bytes. */
  datatype MacArg = StrArg(text: string) | BytesArg(octets: string)

  /** `hmac.new(secret.encode(), msg, hashlib.sha256).digest()`: feeding a `str` to the
      hash raises TypeError ("Strings must be encoded before hashing"). */
  function HmacNew(a: Authenticator, msg: MacArg): Result<seq<byte>, PyError> {
    match msg
    case StrArg(_) => Failure(TypeError)
    case BytesArg(b) => Success(a.mac(a.secret, b))
  }

  /** `validate_hmac(payload, received_hmac)` exactly as both servers call it: the
      payload is the `str` that `msg.payload.decode().split("|")` produced. */
  function ValidateHmacAsWritten(a: Authenticator, payload: string, tag: string): (r: Result<bool, PyError>)
    ensures r == Failure(TypeError)
  {
    match HmacNew(a, StrArg(payload))
    case Success(d) => Success(Hexdigest(d) == tag)
    case Failure(e) => Failure(e)
  }

  /** The corrected check, `hmac.new(key, payload.encode(), sha256)`, is ValidateHmac. */
  lemma ValidateHmacOverBytes(a: Authenticator, payload: string, tag: string)
    ensures HmacNew(a, BytesArg(payload)).Success?
    ensures ValidateHmac(a, payload, tag) <==> Hexdigest(HmacNew(a, BytesArg(payload)).value) == tag
  {
  }
}
