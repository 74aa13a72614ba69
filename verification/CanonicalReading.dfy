/** How the canonical text looks: the forms of numbers and of string escapes, the order of keys, and one whole text. */
module CanonicalReading {
  import opened Common
  import opened JsStrings
  import opened CanonicalJson
  import opened CanonicalNumbers
  import opened CanonicalTheorems
  import opened SensitiveKeys

  // ----- Order of keys ------------------------------------------------------------------------

  /** The first unit in which the texts differ decides, or the end of the shorter one. */
  predicate DecidedAt(a: JsString, b: JsString, k: nat) {
    k <= |a| && k < |b| && a[..k] == b[..k] && (k == |a| || a[k] < b[k])
  }

  lemma DecidedLater(a: JsString, b: JsString, k: nat)
    requires a != [] && b != [] && a[0] == b[0]
    ensures k > 0 && DecidedAt(a, b, k) ==> DecidedAt(a[1..], b[1..], k - 1)
    ensures DecidedAt(a[1..], b[1..], k) ==> DecidedAt(a, b, k + 1)
  {
    if k > 0 && DecidedAt(a, b, k) {
      assert a[1..][..k - 1] == a[..k][1..] && b[1..][..k - 1] == b[..k][1..];
    }
    if DecidedAt(a[1..], b[1..], k) {
      assert a[..k + 1] == [a[0]] + a[1..][..k] && b[..k + 1] == [b[0]] + b[1..][..k];
    }
  }

  lemma {:induction false} LessMeans(a: JsString, b: JsString)
    ensures Less(a, b) <==> exists k: nat :: DecidedAt(a, b, k)
  {
    if a != [] && b != [] && a[0] == b[0] {
      LessMeans(a[1..], b[1..]);
      if Less(a, b) {
        var k: nat :| DecidedAt(a[1..], b[1..], k);
        DecidedLater(a, b, k);
      }
      if k: nat :| DecidedAt(a, b, k) {
        assert k > 0;
        DecidedLater(a, b, k);
      }
    } else {
      if Less(a, b) { assert DecidedAt(a, b, 0); }
      if k: nat :| DecidedAt(a, b, k) { FirstDecides(a, b, k); }
    }
  }

  lemma SameFirst(a: JsString, b: JsString, k: nat)
    requires k > 0 && DecidedAt(a, b, k)
    ensures a[0] == b[0]
  {
    assert a[..k][0] == a[0] && b[..k][0] == b[0];
  }

  lemma FirstDecides(a: JsString, b: JsString, k: nat)
    requires DecidedAt(a, b, k) && (a == [] || b == [] || a[0] != b[0])
    ensures Less(a, b)
  {
    if k > 0 { SameFirst(a, b, k); }
  }

  // ----- Numbers ------------------------------------------------------------------------------

  /** An exponent is printed if and only if the number is 1e21 or more, or less than 1e-6. */
  lemma ExponentIff(x: Number)
    requires ValidNumber(x)
    ensures 101 in NumberText(x) <==> x.Finite? && (x.point > 21 || x.point < -5)
  {
    if x.Finite? {
      var d, n := x.digits, x.point;
      var text := UnsignedText(d, n);
      if n > 21 || n < -5 {
        var m := Mantissa(d);
        assert text == m + [101] + ExponentText(n - 1);
        assert text[|m|] == 101;
      } else {
        assert 101 !in d;
        assert 101 !in text;
      }
    }
  }

  /** An integer below 1e21 is printed in decimal digits. */
  lemma IntegersPrint(n: nat, x: Number)
    requires n > 0 && x.Finite? && !x.negative && ValidNumber(x)
    requires |x.digits| <= x.point <= 21 && x.digits + Zeros(x.point - |x.digits|) == Decimal(n)
    ensures NumberText(x) == Decimal(n)
  {
    assert [] + Decimal(n) == Decimal(n);
  }

  lemma LargeNumber()
    ensures NumberText(Finite(false, [49], 22)) == [49, 101, 43, 50, 49]
  {
    assert Decimal(2) == [50] && Decimal(21) == [50, 49];
  }

  lemma SmallNumber()
    ensures NumberText(Finite(false, [49, 53], -6)) == [49, 46, 53, 101, 45, 55]
  {
    assert [49, 53][..1] == [49] && [49, 53][1..] == [53];
    assert Mantissa([49, 53]) == [49, 46, 53];
    assert ExponentText(-7) == [45, 55];
  }

  lemma NegativeNumber()
    ensures NumberText(Finite(true, [49, 50, 53], 2)) == [45, 49, 50, 46, 53]
  {
    assert [49, 50, 53][..2] == [49, 50] && [49, 50, 53][2..] == [53];
  }

  /** 1e21 and 1.5e-7 have exponents, -12.5 has none. */
  lemma SomeNumbers()
    ensures NumberText(Finite(false, [49], 22)) == [49, 101, 43, 50, 49]
    ensures NumberText(Finite(false, [49, 53], -6)) == [49, 46, 53, 101, 45, 55]
    ensures NumberText(Finite(true, [49, 50, 53], 2)) == [45, 49, 50, 46, 53]
  {
    LargeNumber();
    SmallNumber();
    NegativeNumber();
  }

  // ----- Strings ------------------------------------------------------------------------------

  /** A unit stands for itself unless it is a control, a quotation mark, a backslash or a surrogate; seven units have
      a short escape. Which unit an escape stands for is told by StringRoundTrip. */
  lemma EscapesMean(u: CodeUnit)
    ensures |EscapeUnit(u)| == 1 <==> u >= 32 && u != 34 && u != 92 && !(0xD800 <= u <= 0xDFFF)
    ensures |EscapeUnit(u)| == 2 <==> u in {8, 9, 10, 12, 13, 34, 92}
    ensures |EscapeUnit(u)| in {1, 2, 6}
  {
  }

  // ----- One text -----------------------------------------------------------------------------

  const NAME := Str([34, 10])
  const FLAGS := Arr([Bool(true), Null, Num(Zero(true))])

  /** [34, 10] is a quotation mark and the end of a line. */
  lemma NameText()
    ensures Canonical(NAME) == [34, 92, 34, 92, 110, 34]
  {
    var s: JsString := [34, 10];
    assert s[1..] == [10] && [10][1..] == [];
    assert Escape([10]) == [92, 110];
    assert Escape(s) == [92, 34] + [92, 110];
  }

  lemma FlagsText()
    ensures Valid(FLAGS) && Canonical(FLAGS) == [91] + Text("true") + [44] + Text("null") + [44, 48, 93]
  {
    var items := FLAGS.items;
    assert items[1..] == [Null, Num(Zero(true))] && items[1..][1..] == [Num(Zero(true))];
    assert ItemsText([Num(Zero(true))]) == [48, 93];
    assert ItemsText([Null, Num(Zero(true))]) == Text("null") + [44] + [48, 93];
    assert ItemsText(items) == Text("true") + [44] + (Text("null") + [44] + [48, 93]);
  }

  lemma TwoEntries(a: JsString, b: JsString)
    ensures EntriesText(SortByKey([Entry([98], b), Entry([97], a)])) ==
            [34, 97, 34, 58] + a + [44] + ([34, 98, 34, 58] + b + [125])
  {
    var ea, eb := Entry([97], a), Entry([98], b);
    assert [eb, ea][1..] == [ea] && [ea][1..] == [];
    assert SortByKey([ea]) == [ea];
    assert !Less([98], [97]) && Insert(eb, []) == [eb];
    assert Insert(eb, [ea]) == [ea] + [eb];
    assert SortByKey([eb, ea]) == [ea, eb];
    assert [ea, eb][1..] == [eb];
    assert Escape([97]) == [97] && Escape([98]) == [98];
    assert Quoted([97]) == [34, 97, 34] && Quoted([98]) == [34, 98, 34];
    assert [34, 97, 34] + [58] == [34, 97, 34, 58] && [34, 98, 34] + [58] == [34, 98, 34, 58];
  }

  lemma VisibleFirst(m: Member, rest: seq<Member>)
    requires Valid(m.value) && MembersValid(rest) && !IsSensitiveKey(m.key)
    ensures MembersValid([m] + rest) && Entries([m] + rest) == [Entry(m.key, Canonical(m.value))] + Entries(rest)
  {
    assert ([m] + rest)[1..] == rest;
  }

  lemma SecretFirst(m: Member, rest: seq<Member>)
    requires Valid(m.value) && MembersValid(rest) && IsSensitiveKey(m.key)
    ensures MembersValid([m] + rest) && Entries([m] + rest) == Entries(rest)
  {
    assert ([m] + rest)[1..] == rest;
    HiddenFirst([m] + rest);
  }

  /** Members in the order b, a sensitive one, a. */
  function Three(key: JsString, b: Json, p: Json, a: Json): seq<Member> {
    [Member([98], b)] + ([Member(key, p)] + ([Member([97], a)] + []))
  }

  lemma ThreeEntries(key: JsString, b: Json, p: Json, a: Json)
    requires Valid(a) && Valid(b) && Valid(p) && IsSensitiveKey(key)
    ensures MembersValid(Three(key, b, p, a)) && KeysDistinct(Three(key, b, p, a))
    ensures Entries(Three(key, b, p, a)) == [Entry([98], Canonical(b))] + ([Entry([97], Canonical(a))] + [])
  {
    ShortKey(97);
    ShortKey(98);
    VisibleFirst(Member([97], a), []);
    SecretFirst(Member(key, p), [Member([97], a)] + []);
    VisibleFirst(Member([98], b), [Member(key, p)] + ([Member([97], a)] + []));
  }

  /** The object with the members b, a secret and a, in this order, prints as {"a":"...","b":[...]}. */
  lemma OneText(key: JsString, p: Json)
    requires Valid(p) && IsSensitiveKey(key)
    ensures Valid(FLAGS) && Valid(NAME) && Valid(Obj(Three(key, FLAGS, p, NAME)))
    ensures Canonical(Obj(Three(key, FLAGS, p, NAME))) ==
            [123] + ([34, 97, 34, 58] + [34, 92, 34, 92, 110, 34] + [44]
                     + ([34, 98, 34, 58] + ([91] + Text("true") + [44] + Text("null") + [44, 48, 93]) + [125]))
  {
    NameText();
    FlagsText();
    ThreeEntries(key, FLAGS, p, NAME);
    var ea, eb := Entry([97], Canonical(NAME)), Entry([98], Canonical(FLAGS));
    assert [eb] + ([ea] + []) == [eb, ea];
    TwoEntries(Canonical(NAME), Canonical(FLAGS));
  }

  lemma ShortKey(u: CodeUnit)
    requires u == 97 || u == 98
    ensures !IsSensitiveKey([u])
  {
    HarmlessKey([u]);
  }
}
