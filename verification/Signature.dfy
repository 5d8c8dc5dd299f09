/**
 The signature header of a webhook: built, parsed and validated.

 HMAC-SHA-256 (RFC 2104 section 2) is a parameter: any function that gives 32 bytes.  A time is its
 seconds since the year 1, in 64 bits, and its nanoseconds.
 */
module Signature {
  import opened Wrappers
  import opened Text
  import opened Int64

  newtype Byte = x: int | 0 <= x < 256

  type Bytes = seq<Byte>

  // --- Decimal numbers -------------------------------------------------------------------

  function DigitChar(d: int): char
    requires 0 <= d < 10
  {
    ('0' as int + d) as char
  }

  function Decimal(n: nat): (s: string)
    ensures s != "" && forall i :: 0 <= i < |s| ==> '0' <= s[i] <= '9'
  {
    if n < 10 then [DigitChar(n)] else Decimal(n / 10) + [DigitChar(n % 10)]
  }

  /** strconv.FormatInt(n, 10), and %d */
  function FormatInt(n: int): string {
    if n < 0 then "-" + Decimal(-n) else Decimal(n)
  }

  predicate AllDigits(s: string) {
    forall i :: 0 <= i < |s| ==> '0' <= s[i] <= '9'
  }

  function ValueOf(s: string): nat
    requires AllDigits(s)
  {
    if s == "" then 0 else 10 * ValueOf(s[..|s| - 1]) + (s[|s| - 1] as int - '0' as int)
  }

  /** strconv.ParseInt(s, 10, 64): an optional sign and digits, within range. */
  function ParseInt(s: string): Option<int> {
    var digits := if s != "" && (s[0] == '+' || s[0] == '-') then s[1..] else s;
    if digits == "" || !AllDigits(digits) then None
    else
      var magnitude: int := ValueOf(digits);
      var n := if s[0] == '-' then -magnitude else magnitude;
      if IsInt64(n) then Some(n) else None
  }

  lemma {:induction false} ValueOfDecimal(n: nat)
    ensures ValueOf(Decimal(n)) == n
  {
    var s := Decimal(n);
    if n < 10 {
      assert s[..0] == "";
      assert ValueOf(s[..0]) == 0;
    } else {
      ValueOfDecimal(n / 10);
      assert s[..|s| - 1] == Decimal(n / 10);
    }
  }

  lemma ParseUndoesFormat(n: int)
    requires IsInt64(n)
    ensures ParseInt(FormatInt(n)) == Some(n)
  {
    if n < 0 {
      var digits := Decimal(-n);
      assert ValueOf(digits) == -n by {
        ValueOfDecimal(-n);
      }
      assert FormatInt(n)[0] == '-' && FormatInt(n)[1..] == digits;
    } else {
      var digits := Decimal(n);
      assert ValueOf(digits) == n by {
        ValueOfDecimal(n);
      }
      assert digits[0] != '-' && digits[0] != '+';
    }
  }

  // --- Building --------------------------------------------------------------------------

  function HexChar(d: int): char
    requires 0 <= d < 16
  {
    if d < 10 then ('0' as int + d) as char else ('a' as int + d - 10) as char
  }

  /** hex.EncodeToString */
  function Hex(bytes: Bytes): (s: string)
    ensures |s| == 2 * |bytes|
    ensures forall i :: 0 <= i < |s| ==> '0' <= s[i] <= '9' || 'a' <= s[i] <= 'f'
  {
    if bytes == [] then ""
    else [HexChar(bytes[0] as int / 16), HexChar(bytes[0] as int % 16)] + Hex(bytes[1..])
  }

  function AsciiBytes(s: string): (bytes: Bytes)
    requires forall i :: 0 <= i < |s| ==> s[i] as int < 128
    ensures |bytes| == |s|
  {
    seq(|s|, i requires 0 <= i < |s| => (s[i] as int) as Byte)
  }

  lemma FormatIsAscii(n: int)
    ensures forall i :: 0 <= i < |FormatInt(n)| ==> FormatInt(n)[i] as int < 128
  {
  }

  datatype Time = Time(seconds: int, nanos: int)
  {
    predicate Valid() {
      IsInt64(seconds) && 0 <= nanos < 1_000_000_000
    }

    /** The seconds since 1970, wrapped to 64 bits. */
    function Unix(): (n: int)
      ensures IsInt64(n)
    {
      Wrap(seconds - UNIX_EPOCH)
    }
  }

  const UNIX_EPOCH := 62_135_596_800

  function FromUnix(seconds: int): (t: Time)
    ensures t.Valid()
  {
    Time(Wrap(seconds + UNIX_EPOCH), 0)
  }

  datatype Mac = Mac(hmac: (Bytes, Bytes) -> Bytes)

  ghost predicate Gives32Bytes(mac: Mac) {
    forall secret, message :: |mac.hmac(secret, message)| == 32
  }

  function Sign(mac: Mac, secret: Bytes, time: Time, body: Bytes): string {
    FormatIsAscii(time.Unix());
    Hex(mac.hmac(secret, AsciiBytes(FormatInt(time.Unix())) + AsciiBytes(".") + body))
  }

  function BuildHeader(mac: Mac, secret: Bytes, time: Time, body: Bytes): string {
    "t=" + FormatInt(time.Unix()) + ",v1=" + Sign(mac, secret, time, body)
  }

  // --- Parsing ---------------------------------------------------------------------------

  datatype Refusal = MissingHeader | InvalidFormat | Expired | Mismatch

  datatype Header = Header(time: Time, signature: string) | Malformed(refusal: Refusal)

  datatype Fields = Fields(timestamp: string, signature: string) | Broken

  /** What one part does to the fields read so far: SplitN at the first '=', or nothing to split at. */
  function WithPart(fields: Fields, part: string): Fields {
    var trimmed := TrimSpace(part);
    var i := IndexOf(trimmed, '=', 0);
    if fields.Broken? || i == |trimmed| then Broken
    else if trimmed[..i] == "t" then fields.(timestamp := trimmed[i + 1..])
    else if trimmed[..i] == "v1" then fields.(signature := trimmed[i + 1..])
    else fields
  }

  function WithParts(fields: Fields, parts: seq<string>): Fields {
    if parts == [] then fields else WithPart(WithParts(fields, parts[..|parts| - 1]), parts[|parts| - 1])
  }

  const NO_FIELDS := Fields("", "")

  function HeaderOf(fields: Fields): Header {
    if fields.Broken? || fields.timestamp == "" || fields.signature == "" then Malformed(InvalidFormat)
    else
      match ParseInt(fields.timestamp)
      case None => Malformed(InvalidFormat)
      case Some(seconds) => Header(FromUnix(seconds), fields.signature)
  }

  function Parsed(value: string): Header {
    if TrimSpace(value) == "" then Malformed(MissingHeader)
    else HeaderOf(WithParts(NO_FIELDS, SplitBy(value, ',')))
  }

  method ParseHeader(value: string) returns (header: Header)
    ensures header == Parsed(value)
  {
    if TrimSpace(value) == "" {
      return Malformed(MissingHeader);
    }
    var rawTimestamp, signature := "", "";
    var parts := SplitBy(value, ',');
    for k := 0 to |parts|
      invariant Fields(rawTimestamp, signature) == WithParts(NO_FIELDS, parts[..k])
    {
      assert parts[..k + 1][..k] == parts[..k];
      var part := TrimSpace(parts[k]);
      var i := IndexOf(part, '=', 0);
      if i == |part| {
        StaysBroken(NO_FIELDS, parts, k + 1);
        return Malformed(InvalidFormat);
      }
      if part[..i] == "t" {
        rawTimestamp := part[i + 1..];
      } else if part[..i] == "v1" {
        signature := part[i + 1..];
      }
    }
    assert parts[..|parts|] == parts;
    if rawTimestamp == "" || signature == "" {
      return Malformed(InvalidFormat);
    }
    var seconds := ParseInt(rawTimestamp);
    if seconds.None? {
      return Malformed(InvalidFormat);
    }
    return Header(FromUnix(seconds.value), signature);
  }

  lemma {:induction false} StaysBroken(fields: Fields, parts: seq<string>, k: nat)
    requires k <= |parts| && WithParts(fields, parts[..k]).Broken?
    ensures WithParts(fields, parts).Broken?
    decreases |parts|
  {
    if k < |parts| {
      assert parts[..|parts| - 1][..k] == parts[..k];
      StaysBroken(fields, parts[..|parts| - 1], k);
    } else {
      assert parts[..k] == parts;
    }
  }

  // --- Validating ------------------------------------------------------------------------

  /** The exact distance of two times in nanoseconds. */
  function Distance(t: Time, u: Time): int {
    (t.seconds - u.seconds) * 1_000_000_000 + (t.nanos - u.nanos)
  }

  /** None when the signature is accepted. */
  function Validate(mac: Mac, secret: Bytes, value: string, body: Bytes, now: Time, tolerance: int): Option<Refusal> {
    match Parsed(value)
    case Malformed(refusal) => Some(refusal)
    case Header(time, signature) =>
      if AbsDuration(Saturated(Distance(now, time))) > tolerance then Some(Expired)
      else if Sign(mac, secret, time, body) != signature then Some(Mismatch)
      else None
  }
}
