/** JavaScript strings as sequences of UTF-16 code units, their default sort order, and the decimal
    notation of natural numbers. */
module JsStrings {

  type CodeUnit = u: int | 0 <= u < 0x10000 witness 0
  type JsString = seq<CodeUnit>

  function Unit(c: char): CodeUnit {
    if c as int < 0x10000 then c as int else 0xFFFD
  }

  predicate IsLead(u: CodeUnit) {
    0xD800 <= u <= 0xDBFF
  }

  predicate IsTrail(u: CodeUnit) {
    0xDC00 <= u <= 0xDFFF
  }

  /** Surrogates come in pairs only. */
  predicate WellFormed(s: JsString) {
    || s == []
    || (|s| > 1 && IsLead(s[0]) && IsTrail(s[1]) && WellFormed(s[2..]))
    || (!IsLead(s[0]) && !IsTrail(s[0]) && WellFormed(s[1..]))
  }

  /** The code units of a literal. */
  function Text(s: string): JsString {
    seq(|s|, i requires 0 <= i < |s| => Unit(s[i]))
  }

  /** The order of Array.prototype.sort without a comparator: by code units. */
  predicate Less(a: JsString, b: JsString) {
    b != [] && (a == [] || a[0] < b[0] || (a[0] == b[0] && Less(a[1..], b[1..])))
  }

  lemma {:induction false} LessTotal(a: JsString, b: JsString)
    ensures Less(a, b) || Less(b, a) || a == b
    ensures !(Less(a, b) && Less(b, a)) && !Less(a, a)
  {
    if a != [] {
      LessTotal(a[1..], a[1..]);
      if b != [] && a[0] == b[0] {
        LessTotal(a[1..], b[1..]);
        assert a == [a[0]] + a[1..] && b == [b[0]] + b[1..];
      }
    }
  }

  lemma {:induction false} LessTransitive(a: JsString, b: JsString, c: JsString)
    requires Less(a, b) && Less(b, c)
    ensures Less(a, c)
  {
    if a != [] && a[0] == b[0] && b[0] == c[0] {
      LessTransitive(a[1..], b[1..], c[1..]);
    }
  }

  // ----- Decimal notation ---------------------------------------------------------------------

  const ZERO: CodeUnit := 48

  predicate IsDigit(u: CodeUnit) {
    48 <= u <= 57
  }

  predicate AllDigits(s: JsString) {
    forall i :: 0 <= i < |s| ==> IsDigit(s[i])
  }

  function Decimal(n: nat): (s: JsString)
    ensures s != [] && AllDigits(s)
  {
    if n < 10 then [48 + n] else Decimal(n / 10) + [48 + n % 10]
  }

  function ReadDecimal(s: JsString): nat
    requires AllDigits(s)
  {
    if s == [] then 0 else ReadDecimal(s[..|s| - 1]) * 10 + (s[|s| - 1] - 48)
  }

  lemma {:induction false} DecimalRoundTrip(n: nat)
    ensures ReadDecimal(Decimal(n)) == n
  {
    var s := Decimal(n);
    if n >= 10 {
      DecimalRoundTrip(n / 10);
      assert s[..|s| - 1] == Decimal(n / 10);
    } else {
      assert s[..0] == [];
    }
  }

  /** Without leading zero, except for zero itself. */
  lemma {:induction false} DecimalLeads(n: nat)
    requires n > 0
    ensures Decimal(n)[0] != ZERO
  {
    if n >= 10 { DecimalLeads(n / 10); }
  }

  // ----- Splitting and trimming ---------------------------------------------------------------

  /** `split` on one unit. */
  function Split(s: JsString, sep: CodeUnit): (parts: seq<JsString>)
    ensures parts != []
  {
    if s == [] then [[]]
    else
      var rest := Split(s[1..], sep);
      if s[0] == sep then [[]] + rest else [[s[0]] + rest[0]] + rest[1..]
  }

  predicate IsSpace(u: CodeUnit) {
    || 9 <= u <= 13 || u == 32 || u == 160 || u == 0x1680 || 0x2000 <= u <= 0x200A
    || u in {0x2028, 0x2029, 0x202F, 0x205F, 0x3000, 0xFEFF}
  }

  function TrimStart(s: JsString): JsString {
    if s != [] && IsSpace(s[0]) then TrimStart(s[1..]) else s
  }

  function TrimEnd(s: JsString): JsString {
    if s != [] && IsSpace(s[|s| - 1]) then TrimEnd(s[..|s| - 1]) else s
  }

  /** `trim()`. */
  function Trim(s: JsString): JsString {
    TrimEnd(TrimStart(s))
  }

  lemma {:induction false} SplitNone(s: JsString, sep: CodeUnit)
    requires sep !in s
    ensures Split(s, sep) == [s]
  {
    if s != [] {
      SplitNone(s[1..], sep);
      assert s == [s[0]] + s[1..];
    }
  }

  lemma {:induction false} SplitAt(a: JsString, sep: CodeUnit, b: JsString)
    requires sep !in a
    ensures Split(a + [sep] + b, sep) == [a] + Split(b, sep)
  {
    var s := a + [sep] + b;
    if a == [] {
      assert s[1..] == b;
    } else {
      SplitAt(a[1..], sep, b);
      assert s[1..] == a[1..] + [sep] + b;
      assert a == [a[0]] + a[1..];
    }
  }

  // ----- What splitting and trimming mean -----------------------------------------------------

  function Joined(parts: seq<JsString>, sep: CodeUnit): JsString {
    if parts == [] then [] else if |parts| == 1 then parts[0] else parts[0] + [sep] + Joined(parts[1..], sep)
  }

  /** The parts of s between the separators. */
  predicate IsSplit(s: JsString, sep: CodeUnit, parts: seq<JsString>) {
    parts != [] && Joined(parts, sep) == s && forall i :: 0 <= i < |parts| ==> sep !in parts[i]
  }

  lemma {:induction false} IsSplitIff(s: JsString, sep: CodeUnit, parts: seq<JsString>)
    requires IsSplit(s, sep, parts)
    ensures Split(s, sep) == parts
    decreases |parts|
  {
    if |parts| == 1 {
      assert parts == [parts[0]];
      SplitNone(s, sep);
    } else {
      var rest := parts[1..];
      IsSplitIff(Joined(rest, sep), sep, rest);
      SplitAt(parts[0], sep, Joined(rest, sep));
      assert parts == [parts[0]] + rest;
    }
  }

  lemma JoinedStep(first: JsString, rest: seq<JsString>, sep: CodeUnit)
    requires rest != []
    ensures Joined([first] + rest, sep) == first + [sep] + Joined(rest, sep)
  {
    assert ([first] + rest)[1..] == rest;
  }

  lemma {:induction false} JoinedLonger(u: CodeUnit, parts: seq<JsString>, sep: CodeUnit)
    requires parts != []
    ensures Joined([[u] + parts[0]] + parts[1..], sep) == [u] + Joined(parts, sep)
  {
    if |parts| > 1 {
      JoinedStep([u] + parts[0], parts[1..], sep);
      assert [u] + parts[0] + [sep] + Joined(parts[1..], sep) == [u] + (parts[0] + [sep] + Joined(parts[1..], sep));
    }
  }

  lemma {:induction false} SplitIsSplit(s: JsString, sep: CodeUnit)
    ensures IsSplit(s, sep, Split(s, sep))
  {
    if s != [] {
      var rest := Split(s[1..], sep);
      SplitIsSplit(s[1..], sep);
      assert s == [s[0]] + s[1..];
      if s[0] == sep {
        JoinedStep([], rest, sep);
        assert [] + [sep] + Joined(rest, sep) == s;
      } else {
        JoinedLonger(s[0], rest, sep);
      }
    }
  }

  predicate AllBlank(s: JsString) {
    forall i :: 0 <= i < |s| ==> IsSpace(s[i])
  }

  /** The blanks of JavaScript. */
  lemma BlanksMean(u: CodeUnit)
    ensures IsSpace(u) <==>
              u in {9, 10, 11, 12, 13, 32, 0xA0, 0x1680, 0x2000, 0x2001, 0x2002, 0x2003, 0x2004, 0x2005, 0x2006,
                    0x2007, 0x2008, 0x2009, 0x200A, 0x2028, 0x2029, 0x202F, 0x205F, 0x3000, 0xFEFF}
  {
  }

  lemma {:induction false} TrimStartMeans(s: JsString) returns (blanks: JsString)
    ensures s == blanks + TrimStart(s) && AllBlank(blanks)
    ensures TrimStart(s) != [] ==> !IsSpace(TrimStart(s)[0])
  {
    if s != [] && IsSpace(s[0]) {
      var more := TrimStartMeans(s[1..]);
      blanks := [s[0]] + more;
      assert s == [s[0]] + s[1..];
      assert s == blanks + TrimStart(s);
    } else {
      blanks := [];
    }
  }

  lemma {:induction false} TrimStartSkips(blanks: JsString, s: JsString)
    requires AllBlank(blanks) && (s == [] || !IsSpace(s[0]))
    ensures TrimStart(blanks + s) == s
  {
    if blanks == [] {
      assert blanks + s == s;
    } else {
      TrimStartSkips(blanks[1..], s);
      assert (blanks + s)[1..] == blanks[1..] + s;
    }
  }

  lemma {:induction false} TrimEndMeans(s: JsString) returns (blanks: JsString)
    ensures s == TrimEnd(s) + blanks && AllBlank(blanks)
    ensures TrimEnd(s) != [] ==> !IsSpace(TrimEnd(s)[|TrimEnd(s)| - 1])
  {
    if s != [] && IsSpace(s[|s| - 1]) {
      var more := TrimEndMeans(s[..|s| - 1]);
      blanks := more + [s[|s| - 1]];
      assert s == s[..|s| - 1] + [s[|s| - 1]];
      assert s == TrimEnd(s) + blanks;
    } else {
      blanks := [];
    }
  }

  lemma {:induction false} TrimEndSkips(s: JsString, blanks: JsString)
    requires AllBlank(blanks) && (s == [] || !IsSpace(s[|s| - 1]))
    ensures TrimEnd(s + blanks) == s
  {
    if blanks == [] {
      assert s + blanks == s;
    } else {
      TrimEndSkips(s, blanks[..|blanks| - 1]);
      assert (s + blanks)[..|s + blanks| - 1] == s + blanks[..|blanks| - 1];
    }
  }

  predicate Surrounded(s: JsString, before: JsString, t: JsString, after: JsString) {
    s == before + (t + after) && AllBlank(before) && AllBlank(after)
  }

  /** t is s without the blanks around it. */
  ghost predicate IsTrimmed(s: JsString, t: JsString) {
    && (exists before, after :: Surrounded(s, before, t, after))
    && (t == [] || (!IsSpace(t[0]) && !IsSpace(t[|t| - 1])))
  }

  lemma TrimIsTrimmed(s: JsString)
    ensures IsTrimmed(s, Trim(s))
  {
    var before := TrimStartMeans(s);
    var after := TrimEndMeans(TrimStart(s));
    assert Surrounded(s, before, Trim(s), after);
    if Trim(s) != [] { assert Trim(s)[0] == TrimStart(s)[0]; }
  }

  lemma {:induction false} BlankTrims(s: JsString)
    requires AllBlank(s)
    ensures TrimStart(s) == []
  {
    if s != [] { BlankTrims(s[1..]); }
  }

  lemma TrimIff(s: JsString, t: JsString)
    ensures Trim(s) == t <==> IsTrimmed(s, t)
  {
    TrimIsTrimmed(s);
    if IsTrimmed(s, t) {
      var before, after :| Surrounded(s, before, t, after);
      if t == [] {
        BlankTrims(s);
      } else {
        assert (t + after)[0] == t[0];
        TrimStartSkips(before, t + after);
        TrimEndSkips(t, after);
      }
    }
  }
}
