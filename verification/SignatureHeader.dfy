/** The signature header of a webhook, `t=<seconds>,v1=<hex digest>`: how it is printed and how a receiver
    checks it. The keyed hash is a parameter. */
module SignatureHeader {
  import opened Common
  import opened JsStrings

  const COMMA: CodeUnit := 44
  const EQUALS: CodeUnit := 61
  const MINUS: CodeUnit := 45
  const PLUS: CodeUnit := 43
  const DOT: CodeUnit := 46

  /** Secret and message to hex digest. */
  type Hmac = (JsString, JsString) -> JsString

  predicate IsLowerHex(u: CodeUnit) {
    48 <= u <= 57 || 97 <= u <= 102
  }

  /** Digests are as long as SHA-256 makes them. */
  predicate IsDigest(d: JsString) {
    |d| == 64 && forall i :: 0 <= i < |d| ==> IsLowerHex(d[i])
  }

  /** A number in a template string. */
  function Printed(n: int): JsString {
    if n < 0 then [MINUS] + Decimal(-n) else Decimal(n)
  }

  function SignPayload(hmac: Hmac, payload: JsString, secret: JsString, timestamp: int): JsString {
    hmac(secret, Printed(timestamp) + [DOT] + payload)
  }

  function BuildSignatureHeader(hmac: Hmac, payload: JsString, secret: JsString, timestamp: int): JsString {
    [116, EQUALS] + Printed(timestamp) + [COMMA] + ([118, 49, EQUALS] + SignPayload(hmac, payload, secret, timestamp))
  }

  // ----- Reading ------------------------------------------------------------------------------

  function LeadingDigits(s: JsString): (d: JsString)
    ensures AllDigits(d)
  {
    if s != [] && IsDigit(s[0]) then [s[0]] + LeadingDigits(s[1..]) else []
  }

  /** `parseInt(value, 10)`; nothing for NaN, which a missing value gives too. */
  function ParseInt(value: Option<JsString>): Option<int> {
    if value.None? then None
    else
      var s := TrimStart(value.value);
      var negative := s != [] && s[0] == MINUS;
      var digits := LeadingDigits(if negative || (s != [] && s[0] == PLUS) then s[1..] else s);
      var value: int := ReadDecimal(digits);
      if digits == [] then None else Some(if negative then -value else value)
  }

  function HexNibble(u: CodeUnit): Option<int> {
    if 48 <= u <= 57 then Some(u - 48)
    else if 97 <= u <= 102 then Some(u - 87)
    else if 65 <= u <= 70 then Some(u - 55)
    else None
  }

  /** `Buffer.from(s, 'hex')`: stops at the first pair that is not hex. */
  function HexBytes(s: JsString): seq<int> {
    if |s| < 2 || HexNibble(s[0]).None? || HexNibble(s[1]).None? then []
    else [16 * HexNibble(s[0]).value + HexNibble(s[1]).value] + HexBytes(s[2..])
  }

  /** What the elements say: the last `t` and the last `v1` count. */
  datatype Fields = Fields(timestamp: Option<int>, signature: Option<JsString>)

  function ReadElement(fields: Fields, element: JsString): Fields {
    var parts := Split(element, EQUALS);
    var value := if |parts| > 1 then Some(parts[1]) else None;
    if parts[0] == [116] then fields.(timestamp := ParseInt(value))
    else if parts[0] == [118, 49] then fields.(signature := value)
    else fields
  }

  function ReadElements(elements: seq<JsString>): Fields {
    if elements == [] then Fields(None, None)
    else ReadElement(ReadElements(elements[..|elements| - 1]), elements[|elements| - 1])
  }

  datatype Verdict = Valid | MissingHeader | Malformed | OutsideTolerance | Mismatch | InvalidEncoding

  function Compare(signature: JsString, expected: JsString): Verdict {
    if |HexBytes(signature)| != |HexBytes(expected)| then InvalidEncoding
    else if HexBytes(signature) == HexBytes(expected) then Valid else Mismatch
  }

  function Distance(a: int, b: int): int {
    if a < b then b - a else a - b
  }

  function Verify(hmac: Hmac, payload: JsString, header: JsString, secret: JsString, tolerance: int,
                  now: int): Verdict
  {
    if header == [] then MissingHeader
    else
      var f := ReadElements(Split(header, COMMA));
      if f.timestamp.None? || f.timestamp.value == 0 || f.signature.None? || f.signature.value == [] then Malformed
      else if Distance(now, f.timestamp.value) > tolerance then OutsideTolerance
      else Compare(f.signature.value, SignPayload(hmac, payload, secret, f.timestamp.value))
  }

  /** The loop over the elements. */
  method VerifySignature(hmac: Hmac, payload: JsString, header: JsString, secret: JsString, tolerance: int, now: int)
      returns (verdict: Verdict)
    ensures verdict == Verify(hmac, payload, header, secret, tolerance, now)
  {
    if header == [] { return MissingHeader; }
    var elements := Split(header, COMMA);
    var timestamp: Option<int>, signature: Option<JsString> := None, None;
    var i := 0;
    while i < |elements|
      invariant 0 <= i <= |elements|
      invariant Fields(timestamp, signature) == ReadElements(elements[..i])
    {
      assert elements[..i + 1][..i] == elements[..i];
      var parts := Split(elements[i], EQUALS);
      var value := if |parts| > 1 then Some(parts[1]) else None;
      if parts[0] == [116] {
        timestamp := ParseInt(value);
      } else if parts[0] == [118, 49] {
        signature := value;
      }
      i := i + 1;
    }
    assert elements[..i] == elements;
    if timestamp.None? || timestamp.value == 0 || signature.None? || signature.value == [] { return Malformed; }
    if Distance(now, timestamp.value) > tolerance { return OutsideTolerance; }
    var expected := SignPayload(hmac, payload, secret, timestamp.value);
    verdict := Compare(signature.value, expected);
  }

  // ----- Printing and reading -----------------------------------------------------------------

  lemma {:induction false} DigitsLead(d: JsString)
    requires AllDigits(d)
    ensures LeadingDigits(d) == d
  {
    if d != [] {
      DigitsLead(d[1..]);
      assert d == [d[0]] + d[1..];
    }
  }

  lemma PrintedReads(n: int)
    ensures ParseInt(Some(Printed(n))) == Some(n)
  {
    var d := Decimal(if n < 0 then -n else n);
    DigitsLead(d);
    DecimalRoundTrip(if n < 0 then -n else n);
    if n < 0 { assert Printed(n)[1..] == d; }
  }

  lemma PrintedIsPlain(n: int)
    ensures COMMA !in Printed(n) && EQUALS !in Printed(n)
  {
    var d := Decimal(if n < 0 then -n else n);
    assert forall i :: 0 <= i < |d| ==> IsDigit(d[i]);
  }

  lemma DigestIsPlain(d: JsString)
    requires IsDigest(d)
    ensures COMMA !in d && EQUALS !in d
  {
  }

  lemma FirstElement(timestamp: int)
    ensures COMMA !in [116, EQUALS] + Printed(timestamp)
    ensures ReadElement(Fields(None, None), [116, EQUALS] + Printed(timestamp)) == Fields(Some(timestamp), None)
  {
    PrintedIsPlain(timestamp);
    PrintedReads(timestamp);
    SplitAt([116], EQUALS, Printed(timestamp));
    SplitNone(Printed(timestamp), EQUALS);
    assert [116, EQUALS] + Printed(timestamp) == [116] + [EQUALS] + Printed(timestamp);
  }

  lemma SecondElement(fields: Fields, digest: JsString)
    requires IsDigest(digest)
    ensures COMMA !in [118, 49, EQUALS] + digest
    ensures ReadElement(fields, [118, 49, EQUALS] + digest) == fields.(signature := Some(digest))
  {
    DigestIsPlain(digest);
    SplitAt([118, 49], EQUALS, digest);
    SplitNone(digest, EQUALS);
    assert [118, 49, EQUALS] + digest == [118, 49] + [EQUALS] + digest;
  }

  /** A printed header reads back as its timestamp and its digest. */
  lemma HeaderReadsBack(hmac: Hmac, payload: JsString, secret: JsString, timestamp: int)
    requires IsDigest(SignPayload(hmac, payload, secret, timestamp))
    ensures var header := BuildSignatureHeader(hmac, payload, secret, timestamp);
            header != [] && ReadElements(Split(header, COMMA))
                            == Fields(Some(timestamp), Some(SignPayload(hmac, payload, secret, timestamp)))
  {
    var digest := SignPayload(hmac, payload, secret, timestamp);
    var first, second := [116, EQUALS] + Printed(timestamp), [118, 49, EQUALS] + digest;
    FirstElement(timestamp);
    SecondElement(Fields(Some(timestamp), None), digest);
    SplitAt(first, COMMA, second);
    SplitNone(second, COMMA);
    TwoElements(first, second);
  }

  lemma TwoElements(first: JsString, second: JsString)
    ensures ReadElements([first] + [second]) == ReadElement(ReadElement(Fields(None, None), first), second)
  {
    assert ([first] + [second])[..1] == [first] && ([first] + [second])[1] == second;
    assert [first][..0] == [];
    assert ReadElements([]) == Fields(None, None);
    assert ReadElements([first]) == ReadElement(Fields(None, None), first);
  }

  // ----- Main results -------------------------------------------------------------------------

  /** Whatever payload, secret and timestamp a header was built from, it is accepted exactly when the
      timestamp is not 0 and within tolerance of the clock. */
  lemma BuiltHeadersVerify(hmac: Hmac, payload: JsString, secret: JsString, timestamp: int, tolerance: int, now: int)
    requires IsDigest(SignPayload(hmac, payload, secret, timestamp))
    ensures Verify(hmac, payload, BuildSignatureHeader(hmac, payload, secret, timestamp), secret, tolerance, now)
            == if timestamp == 0 then Malformed
               else if Distance(now, timestamp) > tolerance then OutsideTolerance else Valid
  {
    HeaderReadsBack(hmac, payload, secret, timestamp);
  }

  lemma {:induction false} HexIsInjective(a: JsString, b: JsString)
    requires |a| == |b| && |a| % 2 == 0
    requires forall i :: 0 <= i < |a| ==> IsLowerHex(a[i]) && IsLowerHex(b[i])
    requires HexBytes(a) == HexBytes(b)
    ensures a == b
  {
    if a != [] {
      assert HexBytes(a)[1..] == HexBytes(a[2..]) && HexBytes(b)[1..] == HexBytes(b[2..]);
      assert HexBytes(a)[0] == HexBytes(b)[0];
      HexIsInjective(a[2..], b[2..]);
      assert a == [a[0], a[1]] + a[2..] && b == [b[0], b[1]] + b[2..];
    }
  }

  /** A header built for one payload and secret is accepted for others only if the digests are the same, so
      never where the keyed hash tells the two messages apart. */
  lemma OtherPayloadsAreRefused(hmac: Hmac, payload: JsString, payload': JsString, secret: JsString, secret': JsString,
                                timestamp: int, tolerance: int, now: int)
    requires IsDigest(SignPayload(hmac, payload, secret, timestamp))
             && IsDigest(SignPayload(hmac, payload', secret', timestamp))
    requires Verify(hmac, payload', BuildSignatureHeader(hmac, payload, secret, timestamp), secret', tolerance, now)
             == Valid
    ensures SignPayload(hmac, payload, secret, timestamp) == SignPayload(hmac, payload', secret', timestamp)
  {
    HeaderReadsBack(hmac, payload, secret, timestamp);
    HexIsInjective(SignPayload(hmac, payload, secret, timestamp), SignPayload(hmac, payload', secret', timestamp));
  }

  /** Different timestamps or payloads are different messages to the hash. */
  lemma MessagesDiffer(timestamp: int, timestamp': int, payload: JsString, payload': JsString)
    ensures Printed(timestamp) + [DOT] + payload == Printed(timestamp') + [DOT] + payload'
            <==> timestamp == timestamp' && payload == payload'
  {
    var p, p' := Printed(timestamp), Printed(timestamp');
    if p + [DOT] + payload == p' + [DOT] + payload' {
      PrintedHasNoDot(timestamp);
      PrintedHasNoDot(timestamp');
      SplitAt(p, DOT, payload);
      SplitAt(p', DOT, payload');
      assert ([p] + Split(payload, DOT))[0] == p && ([p'] + Split(payload', DOT))[0] == p';
      PrintedReads(timestamp);
      PrintedReads(timestamp');
      assert (p + [DOT] + payload)[|p| + 1..] == payload && (p' + [DOT] + payload')[|p'| + 1..] == payload';
    }
  }

  lemma PrintedHasNoDot(n: int)
    ensures DOT !in Printed(n)
  {
    var d := Decimal(if n < 0 then -n else n);
    assert forall i :: 0 <= i < |d| ==> IsDigit(d[i]);
  }
}
