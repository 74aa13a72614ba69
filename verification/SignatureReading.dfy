/** What a signature header must look like for each verdict, whatever its sender put into it. */
module SignatureReading {
  import opened Common
  import opened JsStrings
  import opened SignatureHeader

  // ----- Elements -----------------------------------------------------------------------------

  predicate Named(element: JsString, name: JsString) {
    element == name || name + [61] <= element
  }

  /** The text between the first two equals signs of an element, if it has one. */
  predicate Says(element: JsString, name: JsString, value: JsString) {
    && 61 !in value && name + [61] + value <= element
    && (|element| == |name| + 1 + |value| || element[|name| + 1 + |value|] == 61)
  }

  /** Name and value as the destructuring of `split('=')` gives them. */
  lemma ElementMeans(element: JsString, name: JsString, value: JsString)
    requires 61 !in name
    ensures Split(element, 61)[0] == name <==> Named(element, name)
    ensures Split(element, 61)[0] == name && |Split(element, 61)| > 1 && Split(element, 61)[1] == value
            <==> Says(element, name, value)
  {
    var parts := Split(element, 61);
    SplitIsSplit(element, 61);
    if Named(element, name) { NamedFirst(element, name); }
    if parts[0] == name { FirstNamed(element, name); }
    if Says(element, name, value) { SaysSecond(element, name, value); }
    if parts[0] == name && |parts| > 1 && parts[1] == value { SecondSays(element, name, value); }
  }

  lemma NamedFirst(element: JsString, name: JsString)
    requires 61 !in name && Named(element, name)
    ensures Split(element, 61)[0] == name
  {
    if element == name {
      SplitNone(element, 61);
    } else {
      var rest := element[|name| + 1..];
      assert element == name + [61] + rest;
      SplitAt(name, 61, rest);
    }
  }

  lemma FirstNamed(element: JsString, name: JsString)
    requires Split(element, 61)[0] == name
    ensures Named(element, name)
  {
    SplitIsSplit(element, 61);
  }

  lemma SaysSecond(element: JsString, name: JsString, value: JsString)
    requires 61 !in name && Says(element, name, value)
    ensures var parts := Split(element, 61); parts[0] == name && |parts| > 1 && parts[1] == value
  {
    var rest := element[|name| + 1..];
    assert element == name + [61] + rest;
    SplitAt(name, 61, rest);
    assert rest[..|value|] == value;
    if |rest| == |value| {
      assert rest == value;
      SplitNone(rest, 61);
    } else {
      var more := rest[|value| + 1..];
      assert rest == value + [61] + more;
      SplitAt(value, 61, more);
    }
  }

  lemma SecondSays(element: JsString, name: JsString, value: JsString)
    requires var parts := Split(element, 61); parts[0] == name && |parts| > 1 && parts[1] == value
    ensures Says(element, name, value)
  {
    var parts := Split(element, 61);
    SplitIsSplit(element, 61);
    var rest := Joined(parts[1..], 61);
    assert element == name + [61] + rest;
    assert 61 !in parts[1];
    if |parts| > 2 { assert rest == value + [61] + Joined(parts[1..][1..], 61); }
  }

  /** The last element of that name says the value. */
  predicate LastSays(elements: seq<JsString>, name: JsString, value: JsString) {
    exists i :: 0 <= i < |elements| && Says(elements[i], name, value) && LastNamed(elements, name, i)
  }

  predicate LastNamed(elements: seq<JsString>, name: JsString, i: nat) {
    forall j :: i < j < |elements| ==> !Named(elements[j], name)
  }

  lemma SaysIsNamed(element: JsString, name: JsString, value: JsString)
    requires Says(element, name, value)
    ensures Named(element, name)
  {
    assert (name + [61] + value)[..|name| + 1] == name + [61];
  }

  lemma LastStep(elements: seq<JsString>, name: JsString, value: JsString)
    requires elements != []
    ensures var n := |elements| - 1;
            LastSays(elements, name, value) <==>
              if Named(elements[n], name) then Says(elements[n], name, value) else LastSays(elements[..n], name, value)
  {
    var n := |elements| - 1;
    if LastSays(elements, name, value) {
      var i :| 0 <= i < |elements| && Says(elements[i], name, value) && LastNamed(elements, name, i);
      if i < n { assert Says(elements[..n][i], name, value) && LastNamed(elements[..n], name, i); }
      SaysIsNamed(elements[i], name, value);
    }
    if Named(elements[n], name) {
      if Says(elements[n], name, value) { assert LastNamed(elements, name, n); }
    } else if LastSays(elements[..n], name, value) {
      var i :| 0 <= i < n && Says(elements[..n][i], name, value) && LastNamed(elements[..n], name, i);
      LastLonger(elements, name, i);
    }
  }

  lemma LastLonger(elements: seq<JsString>, name: JsString, i: nat)
    requires elements != [] && i < |elements| - 1
    requires LastNamed(elements[..|elements| - 1], name, i) && !Named(elements[|elements| - 1], name)
    ensures LastNamed(elements, name, i)
  {
    forall j | i < j < |elements|
      ensures !Named(elements[j], name)
    {
      if j < |elements| - 1 { assert elements[j] == elements[..|elements| - 1][j]; }
    }
  }

  /** The last `v1` counts. */
  lemma {:induction false} SignatureRead(elements: seq<JsString>, value: JsString)
    ensures ReadElements(elements).signature == Some(value) <==> LastSays(elements, [118, 49], value)
  {
    if elements != [] {
      var n := |elements| - 1;
      SignatureRead(elements[..n], value);
      LastStep(elements, [118, 49], value);
      ElementMeans(elements[n], [118, 49], value);
    }
  }

  ghost predicate LastStamp(elements: seq<JsString>, t: int) {
    exists value :: LastSays(elements, [116], value) && IsNumeral(value, t)
  }

  /** The last `t` counts. */
  lemma {:induction false} StampRead(elements: seq<JsString>, t: int)
    ensures ReadElements(elements).timestamp == Some(t) <==> LastStamp(elements, t)
  {
    if elements != [] {
      var n := |elements| - 1;
      var last := elements[n];
      StampRead(elements[..n], t);
      forall value
        ensures LastSays(elements, [116], value) <==>
                  if Named(last, [116]) then Says(last, [116], value) else LastSays(elements[..n], [116], value)
      {
        LastStep(elements, [116], value);
      }
      ElementMeans(last, [116], []);
      StampElement(last, ReadElements(elements[..n]), t);
    }
  }

  lemma StampElement(element: JsString, fields: Fields, t: int)
    ensures !Named(element, [116]) ==> ReadElement(fields, element).timestamp == fields.timestamp
    ensures Named(element, [116]) ==>
              (ReadElement(fields, element).timestamp == Some(t)
               <==> exists value :: Says(element, [116], value) && IsNumeral(value, t))
  {
    var parts := Split(element, 61);
    ElementMeans(element, [116], []);
    if Named(element, [116]) {
      if |parts| > 1 {
        ElementMeans(element, [116], parts[1]);
        NumeralIff(parts[1], t);
      }
      forall value | Says(element, [116], value)
        ensures |parts| > 1 && value == parts[1]
      {
        ElementMeans(element, [116], value);
      }
    }
  }

  // ----- Numerals -----------------------------------------------------------------------------

  predicate AllZero(s: JsString) {
    forall i :: 0 <= i < |s| ==> s[i] == 48
  }

  predicate Spells(value: JsString, n: int, blanks: JsString, sign: JsString, zeros: JsString, rest: JsString) {
    && value == blanks + (sign + (zeros + Decimal(if n < 0 then -n else n) + rest))
    && AllBlank(blanks) && AllZero(zeros)
    && (sign == [] || sign == [43] || sign == [45]) && (n < 0 ==> sign == [45]) && (n > 0 ==> sign != [45])
    && (rest == [] || rest[0] < 48 || 57 < rest[0])
  }

  /** Blanks, a sign or none, the decimal digits of n after any number of zeros, and no further digit. */
  ghost predicate IsNumeral(value: JsString, n: int) {
    exists blanks, sign, zeros, rest :: Spells(value, n, blanks, sign, zeros, rest)
  }

  lemma {:induction false} LeadingDigitsMean(s: JsString) returns (rest: JsString)
    ensures s == LeadingDigits(s) + rest && (rest == [] || !IsDigit(rest[0]))
  {
    if s != [] && IsDigit(s[0]) {
      rest := LeadingDigitsMean(s[1..]);
      assert s == [s[0]] + s[1..];
      assert [s[0]] + (LeadingDigits(s[1..]) + rest) == [s[0]] + LeadingDigits(s[1..]) + rest;
    } else {
      rest := s;
    }
  }

  lemma {:induction false} LeadingDigitsStop(digits: JsString, rest: JsString)
    requires AllDigits(digits) && (rest == [] || !IsDigit(rest[0]))
    ensures LeadingDigits(digits + rest) == digits
  {
    if digits == [] {
      assert digits + rest == rest;
    } else {
      LeadingDigitsStop(digits[1..], rest);
      assert (digits + rest)[1..] == digits[1..] + rest;
      assert digits == [digits[0]] + digits[1..];
    }
  }

  lemma {:induction false} ZerosDoNotCount(zeros: JsString, n: nat)
    requires AllZero(zeros)
    ensures AllDigits(zeros + Decimal(n)) && ReadDecimal(zeros + Decimal(n)) == n
  {
    var s := zeros + Decimal(n);
    if n >= 10 {
      ZerosDoNotCount(zeros, n / 10);
      assert s[..|s| - 1] == zeros + Decimal(n / 10);
    } else {
      assert s[..|s| - 1] == zeros;
      ZerosReadZero(zeros);
    }
  }

  lemma {:induction false} ZerosReadZero(zeros: JsString)
    requires AllZero(zeros)
    ensures AllDigits(zeros) && ReadDecimal(zeros) == 0
  {
    if zeros != [] { ZerosReadZero(zeros[..|zeros| - 1]); }
  }

  lemma {:induction false} DigitsSpell(digits: JsString) returns (zeros: JsString)
    requires digits != [] && AllDigits(digits)
    ensures AllZero(zeros) && digits == zeros + Decimal(ReadDecimal(digits))
  {
    var last := |digits| - 1;
    var init := digits[..last];
    assert digits == init + [digits[last]];
    if init == [] {
      zeros := [];
      assert ReadDecimal(init) == 0;
    } else {
      var m := ReadDecimal(init);
      var more := DigitsSpell(init);
      if m == 0 {
        zeros := more + [48];
        assert init == zeros;
      } else {
        zeros := more;
        assert Decimal(ReadDecimal(digits)) == Decimal(m) + [digits[last]];
        assert digits == zeros + (Decimal(m) + [digits[last]]);
      }
    }
  }

  /** `parseInt` answers n for the numerals of n and for no other text. */
  lemma NumeralIff(value: JsString, n: int)
    ensures ParseInt(Some(value)) == Some(n) <==> IsNumeral(value, n)
  {
    if ParseInt(Some(value)) == Some(n) { ParsedIsNumeral(value, n); }
    if IsNumeral(value, n) {
      var blanks, sign, zeros, rest :| Spells(value, n, blanks, sign, zeros, rest);
      NumeralParses(value, n, blanks, sign, zeros, rest);
    }
  }

  lemma NumeralParses(value: JsString, n: int, blanks: JsString, sign: JsString, zeros: JsString, rest: JsString)
    requires Spells(value, n, blanks, sign, zeros, rest)
    ensures ParseInt(Some(value)) == Some(n)
  {
    var m := if n < 0 then -n else n;
    var digits := zeros + Decimal(m);
    var tail := digits + rest;
    ZerosDoNotCount(zeros, m);
    assert IsDigit(tail[0]) by { assert tail[0] == digits[0]; }
    SignedParses(value, blanks, sign, tail);
    LeadingDigitsStop(digits, rest);
  }

  lemma SignedParses(value: JsString, blanks: JsString, sign: JsString, tail: JsString)
    requires value == blanks + (sign + tail) && AllBlank(blanks) && tail != [] && IsDigit(tail[0])
    requires sign == [] || sign == [43] || sign == [45]
    ensures var digits := LeadingDigits(tail);
            var n: int := ReadDecimal(digits);
            digits != [] && ParseInt(Some(value)) == Some(if sign == [45] then -n else n)
  {
    var s := sign + tail;
    assert s[0] == if sign == [] then tail[0] else sign[0];
    TrimStartSkips(blanks, s);
    if sign == [] { assert s == tail; } else { assert s[1..] == tail; }
  }

  lemma ParsedIsNumeral(value: JsString, n: int)
    requires ParseInt(Some(value)) == Some(n)
    ensures IsNumeral(value, n)
  {
    var blanks := TrimStartMeans(value);
    var s := TrimStart(value);
    var sign := if s != [] && (s[0] == 45 || s[0] == 43) then [s[0]] else [];
    var tail := if s != [] && (s[0] == 45 || s[0] == 43) then s[1..] else s;
    assert s == sign + tail;
    var rest := LeadingDigitsMean(tail);
    var zeros := DigitsSpell(LeadingDigits(tail));
    assert Spells(value, n, blanks, sign, zeros, rest);
  }

  // ----- Hexadecimal digits -------------------------------------------------------------------

  predicate IsHex(u: CodeUnit) {
    48 <= u <= 57 || 65 <= u <= 70 || 97 <= u <= 102
  }

  /** A hexadecimal digit with its letter in lower case. */
  function LowerHex(u: CodeUnit): CodeUnit {
    if 65 <= u <= 70 then u + 32 else u
  }

  /** s begins with k pairs of hexadecimal digits and no more. */
  predicate HexPairs(s: JsString, k: nat) {
    && 2 * k <= |s| && (forall i :: 0 <= i < 2 * k ==> IsHex(s[i]))
    && !(2 * k + 2 <= |s| && IsHex(s[2 * k]) && IsHex(s[2 * k + 1]))
  }

  lemma {:induction false} HexBytesCount(s: JsString)
    ensures HexPairs(s, |HexBytes(s)|)
  {
    if |s| >= 2 && IsHex(s[0]) && IsHex(s[1]) {
      HexBytesCount(s[2..]);
      var k := |HexBytes(s[2..])|;
      assert forall i :: 2 <= i < 2 * k + 2 ==> s[i] == s[2..][i - 2];
    }
  }

  lemma HexPairsIff(s: JsString, k: nat)
    ensures |HexBytes(s)| == k <==> HexPairs(s, k)
  {
    HexBytesCount(s);
    var n := |HexBytes(s)|;
    if HexPairs(s, k) && k != n { TwoCounts(s, if k < n then k else n, if k < n then n else k); }
  }

  lemma TwoCounts(s: JsString, k: nat, n: nat)
    requires k < n && HexPairs(s, n)
    ensures !HexPairs(s, k)
  {
    assert IsHex(s[2 * k]) && IsHex(s[2 * k + 1]);
  }

  lemma NibbleMeans(u: CodeUnit, v: CodeUnit)
    ensures HexNibble(u).None? <==> !IsHex(u)
    ensures IsHex(u) ==> 0 <= HexNibble(u).value < 16
    ensures IsHex(u) && IsLowerHex(v) ==> (HexNibble(u) == HexNibble(v) <==> LowerHex(u) == v)
  {
  }

  /** The first digits of s are those of the digest, up to the case of letters. */
  predicate BeginsLike(s: JsString, digest: JsString) {
    |digest| <= |s| && forall i :: 0 <= i < |digest| ==> IsHex(s[i]) && LowerHex(s[i]) == digest[i]
  }

  lemma {:induction false} HexBytesAgree(s: JsString, digest: JsString)
    requires |digest| % 2 == 0 && forall i :: 0 <= i < |digest| ==> IsLowerHex(digest[i])
    requires HexPairs(s, |digest| / 2)
    ensures HexBytes(s) == HexBytes(digest) <==> BeginsLike(s, digest)
  {
    HexPairsIff(s, |digest| / 2);
    HexPairsIff(digest, |digest| / 2);
    if digest != [] {
      assert HexPairs(s[2..], |digest[2..]| / 2) by { PairsShrink(s, |digest| / 2); }
      HexBytesAgree(s[2..], digest[2..]);
      NibbleMeans(s[0], digest[0]);
      NibbleMeans(s[1], digest[1]);
      FirstByte(s, digest);
      BeginsLikeStep(s, digest);
    }
  }

  lemma PairsShrink(s: JsString, k: nat)
    requires k > 0 && HexPairs(s, k)
    ensures HexPairs(s[2..], k - 1)
  {
    assert forall i :: 0 <= i < 2 * k - 2 ==> s[2..][i] == s[i + 2];
  }

  lemma FirstByte(s: JsString, digest: JsString)
    requires |s| >= 2 && |digest| >= 2 && IsHex(s[0]) && IsHex(s[1]) && IsLowerHex(digest[0]) && IsLowerHex(digest[1])
    ensures HexBytes(s) == HexBytes(digest) <==>
              && LowerHex(s[0]) == digest[0] && LowerHex(s[1]) == digest[1]
              && HexBytes(s[2..]) == HexBytes(digest[2..])
  {
    NibbleMeans(s[0], digest[0]);
    NibbleMeans(s[1], digest[1]);
    NibbleMeans(digest[0], digest[0]);
    NibbleMeans(digest[1], digest[1]);
    var a, b := HexBytes(s), HexBytes(digest);
    assert a[1..] == HexBytes(s[2..]) && b[1..] == HexBytes(digest[2..]);
    if a == b { assert a[0] == b[0]; }
  }

  lemma BeginsLikeStep(s: JsString, digest: JsString)
    requires |s| >= 2 && |digest| >= 2 && IsHex(s[0]) && IsHex(s[1])
    ensures BeginsLike(s, digest) <==>
              LowerHex(s[0]) == digest[0] && LowerHex(s[1]) == digest[1] && BeginsLike(s[2..], digest[2..])
  {
    if LowerHex(s[0]) == digest[0] && LowerHex(s[1]) == digest[1] && BeginsLike(s[2..], digest[2..]) {
      forall i | 0 <= i < |digest|
        ensures IsHex(s[i]) && LowerHex(s[i]) == digest[i]
      {
        if i >= 2 { assert s[i] == s[2..][i - 2] && digest[i] == digest[2..][i - 2]; }
      }
    }
    if BeginsLike(s, digest) {
      assert forall i :: 0 <= i < |digest| - 2 ==> s[2..][i] == s[i + 2] && digest[2..][i] == digest[i + 2];
    }
  }

  // ----- The verdicts -------------------------------------------------------------------------

  /** The last `t` of the header is a numeral of t, and its last `v1` is the signature. */
  ghost predicate Carries(header: JsString, t: int, signature: JsString) {
    exists elements ::
      IsSplit(header, 44, elements) && LastStamp(elements, t) && LastSays(elements, [118, 49], signature)
  }

  lemma CarriesIff(header: JsString, t: int, signature: JsString)
    ensures Carries(header, t, signature) <==> ReadElements(Split(header, 44)) == Fields(Some(t), Some(signature))
  {
    var elements := Split(header, 44);
    SplitIsSplit(header, 44);
    StampRead(elements, t);
    SignatureRead(elements, signature);
    if Carries(header, t, signature) {
      var parts :| IsSplit(header, 44, parts) && LastStamp(parts, t) && LastSays(parts, [118, 49], signature);
      IsSplitIff(header, 44, parts);
    }
  }

  /** The keyed hash of the timestamp and the payload. */
  function Digest(hmac: Hmac, payload: JsString, secret: JsString, t: int): JsString {
    hmac(secret, Printed(t) + [46] + payload)
  }

  /** Answered in hexadecimal digits, as SHA-256 does. */
  ghost predicate Hashes(hmac: Hmac) {
    forall secret, message :: IsDigest(hmac(secret, message))
  }

  lemma CompareMeans(signature: JsString, digest: JsString)
    requires IsDigest(digest)
    ensures Compare(signature, digest) == InvalidEncoding <==> !HexPairs(signature, 32)
    ensures Compare(signature, digest) == Valid <==> HexPairs(signature, 32) && BeginsLike(signature, digest)
    ensures Compare(signature, digest) == Mismatch <==> HexPairs(signature, 32) && !BeginsLike(signature, digest)
  {
    HexPairsIff(signature, 32);
    HexPairsIff(digest, 32);
    if HexPairs(signature, 32) { HexBytesAgree(signature, digest); }
  }

  /** ... a timestamp other than 0 and a signature. */
  ghost predicate Whole(header: JsString, t: int, signature: JsString) {
    Carries(header, t, signature) && t != 0 && signature != []
  }

  /** ... not further from the clock than tolerated. */
  ghost predicate Timely(header: JsString, t: int, signature: JsString, tolerance: int, now: int) {
    Whole(header, t, signature) && -tolerance <= now - t <= tolerance
  }

  lemma HeaderReads(header: JsString)
    ensures forall t, signature :: Carries(header, t, signature) <==>
              ReadElements(Split(header, 44)) == Fields(Some(t), Some(signature))
  {
    forall t, signature
      ensures Carries(header, t, signature) <==> ReadElements(Split(header, 44)) == Fields(Some(t), Some(signature))
    {
      CarriesIff(header, t, signature);
    }
  }

  lemma EmptyCarriesNothing()
    ensures ReadElements(Split([], 44)) == Fields(None, None)
  {
    var parts: seq<JsString> := [[]];
    assert Split([], 44) == parts && parts[..0] == [];
    assert Split([], 61) == parts;
    assert ReadElements([]) == Fields(None, None);
    assert ReadElements(parts) == ReadElement(Fields(None, None), []);
  }

  lemma WholeVerdict(hmac: Hmac, payload: JsString, header: JsString, secret: JsString, tolerance: int, now: int,
                     t: int, signature: JsString)
    requires Hashes(hmac) && Whole(header, t, signature)
    ensures header != []
    ensures Verify(hmac, payload, header, secret, tolerance, now) ==
              if !Timely(header, t, signature, tolerance, now) then OutsideTolerance
              else if !HexPairs(signature, 32) then InvalidEncoding
              else if BeginsLike(signature, Digest(hmac, payload, secret, t)) then Valid else Mismatch
  {
    HeaderReads(header);
    EmptyCarriesNothing();
    CompareMeans(signature, Digest(hmac, payload, secret, t));
  }

  /** Two readings of one header agree. */
  lemma WholeOnce(header: JsString, t: int, signature: JsString, t': int, signature': JsString)
    requires Carries(header, t, signature) && Carries(header, t', signature')
    ensures t == t' && signature == signature'
  {
    HeaderReads(header);
  }

  lemma NothingWhole(hmac: Hmac, payload: JsString, header: JsString, secret: JsString, tolerance: int, now: int)
    requires forall t, signature :: !Whole(header, t, signature)
    ensures Verify(hmac, payload, header, secret, tolerance, now) == if header == [] then MissingHeader else Malformed
  {
    HeaderReads(header);
    var f := ReadElements(Split(header, 44));
    if f.timestamp.Some? && f.signature.Some? {
      assert Carries(header, f.timestamp.value, f.signature.value);
      assert !Whole(header, f.timestamp.value, f.signature.value);
    }
  }

  /** A signature is accepted if and only if it begins with the 64 digits of the keyed hash of the carried timestamp
      and the payload, in either case of letters, and no further pair of hexadecimal digits follows them. */
  lemma ValidIff(hmac: Hmac, payload: JsString, header: JsString, secret: JsString, tolerance: int, now: int)
    requires Hashes(hmac)
    ensures Verify(hmac, payload, header, secret, tolerance, now) == Valid <==>
              exists t, signature ::
                && Timely(header, t, signature, tolerance, now) && HexPairs(signature, 32)
                && BeginsLike(signature, Digest(hmac, payload, secret, t))
  {
    if t, signature :| Whole(header, t, signature) {
      WholeVerdict(hmac, payload, header, secret, tolerance, now, t, signature);
      forall t', signature' | Whole(header, t', signature')
        ensures t' == t && signature' == signature
      {
        WholeOnce(header, t, signature, t', signature');
      }
    } else {
      NothingWhole(hmac, payload, header, secret, tolerance, now);
    }
  }

  /** Each refusal, likewise. */
  lemma RefusedIff(hmac: Hmac, payload: JsString, header: JsString, secret: JsString, tolerance: int, now: int)
    requires Hashes(hmac)
    ensures var verdict := Verify(hmac, payload, header, secret, tolerance, now);
            && (verdict == MissingHeader <==> header == [])
            && (verdict == Malformed <==> header != [] && !exists t, signature :: Whole(header, t, signature))
            && (verdict == OutsideTolerance <==>
                  exists t, signature ::
                    Whole(header, t, signature) && (now - t > tolerance || t - now > tolerance))
            && (verdict == InvalidEncoding <==>
                  exists t, signature :: Timely(header, t, signature, tolerance, now) && !HexPairs(signature, 32))
            && (verdict == Mismatch <==>
                  exists t, signature ::
                    && Timely(header, t, signature, tolerance, now) && HexPairs(signature, 32)
                    && !BeginsLike(signature, Digest(hmac, payload, secret, t)))
  {
    if t, signature :| Whole(header, t, signature) {
      WholeVerdict(hmac, payload, header, secret, tolerance, now, t, signature);
      forall t', signature' | Whole(header, t', signature')
        ensures t' == t && signature' == signature
      {
        WholeOnce(header, t, signature, t', signature');
      }
    } else {
      NothingWhole(hmac, payload, header, secret, tolerance, now);
    }
  }

  lemma LikeIsSame(signature: JsString, digest: JsString)
    requires IsDigest(signature) && IsDigest(digest) && BeginsLike(signature, digest)
    ensures signature == digest
  {
    forall i | 0 <= i < 64
      ensures signature[i] == digest[i]
    {
      assert IsLowerHex(signature[i]) && LowerHex(signature[i]) == digest[i];
    }
  }

  /** An accepted signature of 64 lower-case digits is the keyed hash itself. */
  lemma OnlyTheDigest(hmac: Hmac, payload: JsString, header: JsString, secret: JsString, tolerance: int, now: int,
                      t: int, signature: JsString)
    requires Hashes(hmac) && Verify(hmac, payload, header, secret, tolerance, now) == Valid
    requires Carries(header, t, signature) && IsDigest(signature)
    ensures signature == Digest(hmac, payload, secret, t) && t != 0 && -tolerance <= now - t <= tolerance
  {
    if t == 0 {
      HeaderReads(header);
    } else {
      WholeVerdict(hmac, payload, header, secret, tolerance, now, t, signature);
      LikeIsSame(signature, Digest(hmac, payload, secret, t));
    }
  }

  /** What follows the 64 digits is not read: a signature with such an ending is accepted as well. */
  lemma EndingsAreIgnored(hmac: Hmac, payload: JsString, header: JsString, secret: JsString, tolerance: int, now: int,
                          t: int, ending: JsString)
    requires Hashes(hmac) && t != 0 && -tolerance <= now - t <= tolerance
    requires Carries(header, t, Digest(hmac, payload, secret, t) + ending)
    requires |ending| < 2 || !IsHex(ending[0]) || !IsHex(ending[1])
    ensures Verify(hmac, payload, header, secret, tolerance, now) == Valid
  {
    var digest := Digest(hmac, payload, secret, t);
    var signature := digest + ending;
    assert IsDigest(digest);
    assert |ending| >= 2 ==> signature[64] == ending[0] && signature[65] == ending[1];
    WholeVerdict(hmac, payload, header, secret, tolerance, now, t, signature);
  }

  /** A header as it is built has two elements, the timestamp in decimal digits and the keyed hash. */
  lemma BuiltHeader(hmac: Hmac, payload: JsString, secret: JsString, t: int)
    requires Hashes(hmac)
    ensures IsSplit(BuildSignatureHeader(hmac, payload, secret, t), 44,
                    [[116, 61] + Printed(t), [118, 49, 61] + Digest(hmac, payload, secret, t)])
  {
    var first, second := [116, 61] + Printed(t), [118, 49, 61] + Digest(hmac, payload, secret, t);
    PrintedIsPlain(t);
    DigestIsPlain(Digest(hmac, payload, secret, t));
    assert [first, second][1..] == [second];
    assert first + [44] + second == BuildSignatureHeader(hmac, payload, secret, t);
  }
}
