/** Number texts read back: distinct finite doubles have distinct texts, the two zeros excepted. */
module CanonicalNumbers {
  import opened JsStrings
  import opened CanonicalJson

  function IndexOf(s: JsString, u: CodeUnit): (i: nat)
    ensures i <= |s|
  {
    if s == [] || s[0] == u then 0 else 1 + IndexOf(s[1..], u)
  }

  lemma {:induction false} IndexSplits(a: JsString, u: CodeUnit, b: JsString)
    requires u !in a
    ensures IndexOf(a + [u] + b, u) == |a|
    ensures IndexOf(a, u) == |a|
  {
    if a != [] {
      IndexSplits(a[1..], u, b);
      assert (a + [u] + b)[1..] == a[1..] + [u] + b;
    }
  }

  function DropLeading(s: JsString): (r: JsString)
    ensures |r| <= |s|
  {
    if s != [] && s[0] == ZERO then DropLeading(s[1..]) else s
  }

  function DropTrailing(s: JsString): JsString {
    if s != [] && s[|s| - 1] == ZERO then DropTrailing(s[..|s| - 1]) else s
  }

  lemma {:induction false} DropsLeading(n: nat, d: JsString)
    requires d == [] || d[0] != ZERO
    ensures DropLeading(Zeros(n) + d) == d
  {
    if n == 0 {
      assert Zeros(0) + d == d;
    } else {
      DropsLeading(n - 1, d);
      assert (Zeros(n) + d)[1..] == Zeros(n - 1) + d;
    }
  }

  lemma {:induction false} DropsTrailing(n: nat, d: JsString)
    requires d == [] || d[|d| - 1] != ZERO
    ensures DropTrailing(d + Zeros(n)) == d
  {
    if n == 0 {
      assert d + Zeros(0) == d;
    } else {
      DropsTrailing(n - 1, d);
      assert (d + Zeros(n))[..|d + Zeros(n)| - 1] == d + Zeros(n - 1);
    }
  }

  /** The value of an exponent part with its sign; 0 where there is none. */
  function ReadExponent(s: JsString): int {
    if |s| < 2 || !AllDigits(s[1..]) then 0
    else
      var e: int := ReadDecimal(s[1..]);
      if s[0] == MINUS then -e else e
  }

  /** Digits with an optional decimal point, and an exponent: significant digits and the place of the
      decimal point before them. */
  function ReadMantissa(m: JsString, exponent: int): (JsString, int) {
    var p := IndexOf(m, POINT);
    var digits := m[..p] + if p == |m| then [] else m[p + 1..];
    var significant := DropLeading(digits);
    (DropTrailing(significant), p + exponent - (|digits| - |significant|))
  }

  function ReadUnsigned(t: JsString): (JsString, int) {
    var e := IndexOf(t, EXPONENT);
    ReadMantissa(t[..e], if e == |t| then 0 else ReadExponent(t[e + 1..]))
  }

  lemma PlainForm(d: JsString, n: int)
    requires ValidNumber(Finite(false, d, n)) && |d| <= n <= 21
    ensures ReadUnsigned(d + Zeros(n - |d|)) == (d, n)
  {
    var t := d + Zeros(n - |d|);
    IndexSplits(t, EXPONENT, []);
    assert t[..|t|] == t;
    IndexSplits(t, POINT, []);
    assert t[..|t|] + [] == t;
    DropsTrailing(n - |d|, d);
    assert DropLeading(t) == t;
  }

  lemma PointForm(d: JsString, n: int)
    requires ValidNumber(Finite(false, d, n)) && 0 < n < |d| && n <= 21
    ensures ReadUnsigned(d[..n] + [POINT] + d[n..]) == (d, n)
  {
    var t := d[..n] + [POINT] + d[n..];
    IndexSplits(t, EXPONENT, []);
    assert t[..|t|] == t;
    IndexSplits(d[..n], POINT, d[n..]);
    assert t[..n] == d[..n] && t[n + 1..] == d[n..] && d[..n] + d[n..] == d;
  }

  lemma FractionForm(d: JsString, n: int)
    requires ValidNumber(Finite(false, d, n)) && -6 < n <= 0
    ensures ReadUnsigned([ZERO, POINT] + Zeros(-n) + d) == (d, n)
  {
    var t := [ZERO, POINT] + Zeros(-n) + d;
    IndexSplits(t, EXPONENT, []);
    assert t[..|t|] == t;
    assert t == [ZERO] + [POINT] + (Zeros(-n) + d);
    IndexSplits([ZERO], POINT, Zeros(-n) + d);
    assert t[..1] + t[2..] == Zeros(1 - n) + d;
    DropsLeading(1 - n, d);
  }

  lemma ExponentReads(e: int)
    ensures ReadExponent(ExponentText(e)) == e
  {
    DecimalRoundTrip(if e < 0 then -e else e);
    assert ExponentText(e)[1..] == Decimal(if e < 0 then -e else e);
  }

  lemma MantissaReads(d: JsString, exponent: int)
    requires ValidNumber(Finite(false, d, 0))
    ensures EXPONENT !in Mantissa(d)
    ensures ReadMantissa(Mantissa(d), exponent) == (d, 1 + exponent)
  {
    var m := Mantissa(d);
    IndexSplits(d[..1], POINT, d[1..]);
    if |d| == 1 {
      assert d == d[..1] && d[..1] + [] == d;
    } else {
      assert m[..1] == d[..1] && m[2..] == d[1..] && d[..1] + d[1..] == d;
    }
  }

  lemma PartsRead(m: JsString, x: JsString)
    requires EXPONENT !in m
    ensures ReadUnsigned(m + [EXPONENT] + x) == ReadMantissa(m, ReadExponent(x))
  {
    var t := m + [EXPONENT] + x;
    IndexSplits(m, EXPONENT, x);
    assert t[..|m|] == m && t[|m| + 1..] == x;
  }

  lemma ScientificForm(d: JsString, n: int)
    requires ValidNumber(Finite(false, d, n))
    ensures ReadUnsigned(ScientificText(d, n)) == (d, n)
  {
    MantissaReads(d, n - 1);
    PartsRead(Mantissa(d), ExponentText(n - 1));
    ExponentReads(n - 1);
  }

  lemma ReadsBack(d: JsString, n: int)
    requires ValidNumber(Finite(false, d, n))
    ensures ReadUnsigned(UnsignedText(d, n)) == (d, n)
  {
    if |d| <= n <= 21 { PlainForm(d, n); }
    else if 0 < n <= 21 { PointForm(d, n); }
    else if -6 < n <= 0 { FractionForm(d, n); }
    else { ScientificForm(d, n); }
  }

  lemma UnsignedStarts(d: JsString, n: int)
    requires ValidNumber(Finite(false, d, n))
    ensures UnsignedText(d, n) != [] && IsDigit(UnsignedText(d, n)[0])
  {
  }

  /** Two finite doubles have the same text exactly if they are the same number. */
  lemma NumberTextInjective(x: Number, y: Number)
    requires ValidNumber(x) && ValidNumber(y)
    ensures NumberText(x) == NumberText(y) <==> SameNumber(x, y)
  {
    if NumberText(x) == NumberText(y) {
      if x.Finite? && y.Finite? {
        UnsignedStarts(x.digits, x.point);
        UnsignedStarts(y.digits, y.point);
        var t := NumberText(x);
        assert UnsignedText(x.digits, x.point) == t[if x.negative then 1 else 0..];
        assert UnsignedText(y.digits, y.point) == t[if y.negative then 1 else 0..];
        ReadsBack(x.digits, x.point);
        ReadsBack(y.digits, y.point);
      } else if x.Finite? {
        ZeroText(x);
      } else if y.Finite? {
        ZeroText(y);
      }
    }
  }

  lemma ZeroText(x: Number)
    requires x.Finite? && ValidNumber(x)
    ensures NumberText(x) != [ZERO]
  {
    UnsignedStarts(x.digits, x.point);
    ReadsBack(x.digits, x.point);
    ReadsZero();
    if !x.negative { assert NumberText(x) == UnsignedText(x.digits, x.point); }
  }

  lemma ReadsZero()
    ensures ReadUnsigned([ZERO]).0 == []
  {
    IndexSplits([ZERO], EXPONENT, []);
    IndexSplits([ZERO], POINT, []);
    assert [ZERO][..1] == [ZERO] && [ZERO][..1] + [] == [ZERO];
    assert [ZERO][1..] == [];
  }

  predicate NumberUnit(u: CodeUnit) {
    IsDigit(u) || u in {MINUS, PLUS, POINT, EXPONENT}
  }

  predicate AllNumberUnits(s: JsString) {
    forall i :: 0 <= i < |s| ==> NumberUnit(s[i])
  }

  lemma NumberUnits(x: Number)
    requires ValidNumber(x)
    ensures NumberText(x) != [] && (IsDigit(NumberText(x)[0]) || NumberText(x)[0] == MINUS)
    ensures AllNumberUnits(NumberText(x))
  {
    if x.Finite? {
      var d, n := x.digits, x.point;
      UnsignedStarts(d, n);
      assert AllNumberUnits(ExponentText(n - 1));
      assert AllNumberUnits(ScientificText(d, n));
      assert AllNumberUnits(UnsignedText(d, n));
    }
  }
}
