/** The canonical text is a sound and complete key: two JSON values have the same text exactly if they
    are equal up to sensitive members and member order. */
module CanonicalTheorems {
  import opened Common
  import opened JsStrings
  import opened CanonicalJson
  import opened CanonicalNumbers

  // ----- Strings ------------------------------------------------------------------------------

  function HexValue(u: CodeUnit): int {
    if u <= 57 then u - 48 else u - 87
  }

  function ReadHex(t: JsString): int
    requires |t| >= 4
  {
    HexValue(t[0]) * 4096 + HexValue(t[1]) * 256 + HexValue(t[2]) * 16 + HexValue(t[3])
  }

  function ReadEscape(u: CodeUnit): CodeUnit {
    if u == 98 then 8 else if u == 116 then 9 else if u == 110 then 10 else if u == 102 then 12 else if u == 114 then 13
    else u
  }

  function Prepend(u: CodeUnit, r: Option<(JsString, JsString)>): Option<(JsString, JsString)> {
    if r.None? then None else Some(([u] + r.value.0, r.value.1))
  }

  /** Reads a string body up to its closing quote: the string and what follows. */
  function Unescape(t: JsString): Option<(JsString, JsString)> {
    if t == [] then None
    else if t[0] == QUOTE then Some(([], t[1..]))
    else if t[0] != BACKSLASH then Prepend(t[0], Unescape(t[1..]))
    else if |t| < 2 then None
    else if t[1] != LETTER_U then Prepend(ReadEscape(t[1]), Unescape(t[2..]))
    else if |t| < 6 || !(0 <= ReadHex(t[2..]) < 0x10000) then None
    else Prepend(ReadHex(t[2..]), Unescape(t[6..]))
  }

  lemma HexRoundTrip(u: CodeUnit, rest: JsString)
    ensures ReadHex([HexDigit(u / 4096), HexDigit(u / 256 % 16), HexDigit(u / 16 % 16), HexDigit(u % 16)] + rest) == u
  {
    var a, b, c := u / 4096, u / 256, u / 16;
    assert u == c * 16 + u % 16 && c == b * 16 + c % 16 && b == a * 16 + b % 16;
  }

  lemma UnitRoundTrip(u: CodeUnit, rest: JsString)
    ensures Unescape(EscapeUnit(u) + rest) == Prepend(u, Unescape(rest))
  {
    var e := EscapeUnit(u);
    var t := e + rest;
    assert t[|e|..] == rest;
    if |e| == 6 {
      HexRoundTrip(u, rest);
      assert t[2..] == [HexDigit(u / 4096), HexDigit(u / 256 % 16), HexDigit(u / 16 % 16), HexDigit(u % 16)] + rest;
    }
  }

  lemma PairRoundTrip(u: CodeUnit, v: CodeUnit, rest: JsString)
    requires IsLead(u) && IsTrail(v)
    ensures Unescape([u, v] + rest) == Prepend(u, Prepend(v, Unescape(rest)))
  {
    var t := [u, v] + rest;
    assert t[1..] == [v] + rest;
    assert t[1..][1..] == rest;
  }

  lemma EscapePair(s: JsString, end: JsString)
    requires |s| > 1 && IsLead(s[0]) && IsTrail(s[1])
    ensures Escape(s) + end == s[..2] + (Escape(s[2..]) + end)
  {
    var others := Escape(s[2..]);
    assert Escape(s) == s[..2] + others;
    Regroup(s[..2], others, end);
  }

  lemma EscapeOne(s: JsString, end: JsString)
    requires s != [] && !(|s| > 1 && IsLead(s[0]) && IsTrail(s[1]))
    ensures Escape(s) + end == EscapeUnit(s[0]) + (Escape(s[1..]) + end)
    ensures s == [s[0]] + s[1..]
  {
    Regroup(EscapeUnit(s[0]), Escape(s[1..]), end);
  }

  lemma Regroup(a: JsString, b: JsString, c: JsString)
    ensures (a + b) + c == a + (b + c)
  {
  }

  lemma {:induction false} StringRoundTrip(s: JsString, r: JsString)
    ensures Unescape(Escape(s) + ([QUOTE] + r)) == Some((s, r))
  {
    if s == [] {
      EmptyRoundTrip(r);
    } else if IsLead(s[0]) && |s| > 1 && IsTrail(s[1]) {
      StringRoundTrip(s[2..], r);
      PairRoundTrip(s[0], s[1], Escape(s[2..]) + ([QUOTE] + r));
      EscapePair(s, [QUOTE] + r);
      assert s[..2] == [s[0], s[1]] && s == [s[0]] + ([s[1]] + s[2..]);
    } else {
      StringRoundTrip(s[1..], r);
      UnitRoundTrip(s[0], Escape(s[1..]) + ([QUOTE] + r));
      EscapeOne(s, [QUOTE] + r);
    }
  }

  lemma EmptyRoundTrip(r: JsString)
    ensures Unescape(Escape([]) + ([QUOTE] + r)) == Some(([], r))
  {
    assert Escape([]) + ([QUOTE] + r) == [QUOTE] + r;
    assert ([QUOTE] + r)[1..] == r;
  }

  lemma QuotedUnique(x: JsString, y: JsString, r: JsString, s: JsString)
    requires Quoted(x) + r == Quoted(y) + s
    ensures x == y && r == s
  {
    var p, q := Escape(x) + ([QUOTE] + r), Escape(y) + ([QUOTE] + s);
    assert Quoted(x) + r == [QUOTE] + p;
    assert Quoted(y) + s == [QUOTE] + q;
    CutPrefix([QUOTE], p, q);
    StringRoundTrip(x, r);
    StringRoundTrip(y, s);
  }

  // ----- Sorting ------------------------------------------------------------------------------

  predicate Sorted(es: seq<Entry>) {
    forall i, j :: 0 <= i < j < |es| ==> Less(es[i].key, es[j].key)
  }

  predicate EntryKeysDistinct(es: seq<Entry>) {
    forall i, j :: 0 <= i < j < |es| ==> es[i].key != es[j].key
  }

  lemma {:induction false} InsertKeeps(e: Entry, es: seq<Entry>)
    requires Sorted(es) && forall i :: 0 <= i < |es| ==> es[i].key != e.key
    ensures Sorted(Insert(e, es))
    ensures forall x :: x in Insert(e, es) <==> x == e || x in es
  {
    if es == [] {
    } else if Less(e.key, es[0].key) {
      forall i | 0 <= i < |es|
        ensures Less(e.key, es[i].key)
      {
        if i > 0 { LessTransitive(e.key, es[0].key, es[i].key); }
      }
    } else {
      LessTotal(e.key, es[0].key);
      InsertKeeps(e, es[1..]);
      var tail := Insert(e, es[1..]);
      forall i | 0 <= i < |tail|
        ensures Less(es[0].key, tail[i].key)
      {
        assert tail[i] in tail;
        if tail[i] != e {
          var k :| 0 <= k < |es[1..]| && es[1..][k] == tail[i];
          assert es[k + 1] == tail[i];
        }
      }
    }
  }

  lemma {:induction false} SortSorts(es: seq<Entry>)
    requires EntryKeysDistinct(es)
    ensures Sorted(SortByKey(es))
    ensures forall x :: x in SortByKey(es) <==> x in es
  {
    if es != [] {
      SortSorts(es[1..]);
      forall i | 0 <= i < |SortByKey(es[1..])|
        ensures SortByKey(es[1..])[i].key != es[0].key
      {
        assert SortByKey(es[1..])[i] in es[1..];
      }
      InsertKeeps(es[0], SortByKey(es[1..]));
    }
  }

  lemma BothEmpty(xs: seq<Entry>, ys: seq<Entry>)
    requires forall x :: x in xs <==> x in ys
    ensures xs == [] <==> ys == []
  {
    assert xs != [] ==> xs[0] in ys;
    assert ys != [] ==> ys[0] in xs;
  }

  /** There is only one sorted arrangement of a set of entries. */
  lemma {:induction false} SortedUnique(xs: seq<Entry>, ys: seq<Entry>)
    requires Sorted(xs) && Sorted(ys) && forall x :: x in xs <==> x in ys
    ensures xs == ys
  {
    BothEmpty(xs, ys);
    if xs != [] {
      assert xs[0] in ys;
      assert ys[0] in xs;
      var i :| 0 <= i < |ys| && ys[i] == xs[0];
      var j :| 0 <= j < |xs| && xs[j] == ys[0];
      if i > 0 {
        LessTotal(ys[0].key, xs[0].key);
        assert false;
      }
      forall x
        ensures x in xs[1..] <==> x in ys[1..]
      {
        TailMember(xs, x);
        TailMember(ys, x);
      }
      SortedUnique(xs[1..], ys[1..]);
      assert xs == [xs[0]] + xs[1..] && ys == [ys[0]] + ys[1..];
    }
  }

  lemma TailMember(xs: seq<Entry>, x: Entry)
    requires xs != [] && Sorted(xs)
    ensures x in xs[1..] <==> x in xs && x != xs[0]
  {
    if x in xs[1..] {
      var k :| 0 <= k < |xs[1..]| && xs[1..][k] == x;
      assert Less(xs[0].key, xs[k + 1].key);
      LessTotal(x.key, x.key);
    }
  }

  // ----- Entries ------------------------------------------------------------------------------

  predicate PrintedBy(e: Entry, ms: seq<Member>)
    requires MembersValid(ms)
  {
    exists i :: 0 <= i < |ms| && Prints(ms[i], e)
  }

  predicate Prints(m: Member, e: Entry)
    requires Valid(m.value)
  {
    !IsSensitiveKey(m.key) && e == Entry(m.key, Canonical(m.value))
  }

  lemma {:induction false} EntriesAre(ms: seq<Member>, e: Entry)
    requires MembersValid(ms)
    ensures e in Entries(ms) <==> PrintedBy(e, ms)
  {
    if ms != [] {
      EntriesAre(ms[1..], e);
      if e in Entries(ms[1..]) {
        var i :| 0 <= i < |ms[1..]| && Prints(ms[1..][i], e);
        assert Prints(ms[i + 1], e);
      }
      if PrintedBy(e, ms) {
        var i :| 0 <= i < |ms| && Prints(ms[i], e);
        if i > 0 { assert Prints(ms[1..][i - 1], e); }
      }
    }
  }

  lemma {:induction false} EntryKeysAre(ms: seq<Member>)
    requires MembersValid(ms) && KeysDistinct(ms)
    ensures EntryKeysDistinct(Entries(ms))
  {
    if ms != [] {
      EntryKeysAre(ms[1..]);
      forall e | e in Entries(ms[1..])
        ensures e.key != ms[0].key
      {
        EntriesAre(ms[1..], e);
        var i :| 0 <= i < |ms[1..]| && Prints(ms[1..][i], e);
        assert ms[i + 1].key == e.key;
      }
    }
  }

  // ----- Equal meaning, equal text ------------------------------------------------------------

  lemma {:induction false} EquivalentSameText(a: Json, b: Json)
    requires Valid(a) && Valid(b) && Equivalent(a, b)
    ensures Canonical(a) == Canonical(b)
    decreases a
  {
    match a {
      case Num(x) => NumberTextInjective(x, b.n);
      case Arr(xs) => ItemsSameText(xs, b.items);
      case Obj(xs) =>
        ObjectSameText(xs, b.members);
      case _ =>
    }
  }

  lemma {:induction false} ObjectSameText(xs: seq<Member>, ys: seq<Member>)
    requires MembersValid(xs) && MembersValid(ys) && KeysDistinct(xs) && KeysDistinct(ys)
    requires Covered(xs, ys) && CoveredBack(xs, ys)
    ensures SortByKey(Entries(xs)) == SortByKey(Entries(ys))
    decreases xs
  {
    forall e
      ensures e in Entries(xs) <==> e in Entries(ys)
    {
      EntriesAre(xs, e);
      EntriesAre(ys, e);
      if PrintedBy(e, xs) {
        var i :| 0 <= i < |xs| && Prints(xs[i], e);
        var j :| 0 <= j < |ys| && ys[j].key == xs[i].key && Equivalent(xs[i].value, ys[j].value);
        EquivalentSameText(xs[i].value, ys[j].value);
        assert Prints(ys[j], e);
      }
      if PrintedBy(e, ys) {
        var j :| 0 <= j < |ys| && Prints(ys[j], e);
        var i :| 0 <= i < |xs| && xs[i].key == ys[j].key && Equivalent(xs[i].value, ys[j].value);
        EquivalentSameText(xs[i].value, ys[j].value);
        assert Prints(xs[i], e);
      }
    }
    EntryKeysAre(xs);
    EntryKeysAre(ys);
    SortSorts(Entries(xs));
    SortSorts(Entries(ys));
    SortedUnique(SortByKey(Entries(xs)), SortByKey(Entries(ys)));
  }

  lemma {:induction false} ItemsSameText(xs: seq<Json>, ys: seq<Json>)
    requires AllValid(xs) && AllValid(ys) && |xs| == |ys|
    requires forall i :: 0 <= i < |xs| ==> Equivalent(xs[i], ys[i])
    ensures ItemsText(xs) == ItemsText(ys)
    decreases xs
  {
    if xs != [] {
      EquivalentSameText(xs[0], ys[0]);
      ItemsSameText(xs[1..], ys[1..]);
    }
  }

  // ----- Equal text, equal meaning ------------------------------------------------------------

  /** What may follow a value inside a text. */
  predicate Delimited(r: JsString) {
    r == [] || r[0] in {COMMA, CLOSE_ARRAY, CLOSE_OBJECT}
  }

  predicate StartsLike(v: Json, u: CodeUnit) {
    match v
    case Null => u == 110
    case Bool(b) => u == if b then 116 else 102
    case Num(_) => IsDigit(u) || u == MINUS
    case Str(_) => u == QUOTE
    case Arr(_) => u == OPEN_ARRAY
    case Obj(_) => u == OPEN_OBJECT
  }

  lemma FirstUnit(v: Json)
    requires Valid(v)
    ensures Canonical(v) != [] && StartsLike(v, Canonical(v)[0])
  {
    match v {
      case Num(x) => NumberUnits(x);
      case _ =>
    }
  }

  /** The length of the number units a text starts with. */
  function NumberPrefix(t: JsString): nat {
    if t == [] || !NumberUnit(t[0]) then 0 else 1 + NumberPrefix(t[1..])
  }

  lemma {:induction false} PrefixIsNumber(a: JsString, r: JsString)
    requires AllNumberUnits(a) && Delimited(r)
    ensures NumberPrefix(a + r) == |a|
  {
    if a == [] {
      assert a + r == r;
    } else {
      PrefixIsNumber(a[1..], r);
      assert (a + r)[1..] == a[1..] + r;
    }
  }

  /** A number ends where the number units end. */
  lemma NumbersUnique(x: Number, y: Number, r: JsString, s: JsString)
    requires ValidNumber(x) && ValidNumber(y) && Delimited(r) && Delimited(s)
    requires NumberText(x) + r == NumberText(y) + s
    ensures NumberText(x) == NumberText(y) && r == s
  {
    NumberUnits(x);
    NumberUnits(y);
    PrefixIsNumber(NumberText(x), r);
    PrefixIsNumber(NumberText(y), s);
    var n := |NumberText(x)|;
    assert (NumberText(x) + r)[..n] == NumberText(x) && (NumberText(x) + r)[n..] == r;
    assert (NumberText(y) + s)[..n] == NumberText(y) && (NumberText(y) + s)[n..] == s;
  }

  lemma CutPrefix(p: JsString, r: JsString, s: JsString)
    requires p + r == p + s
    ensures r == s
  {
    assert (p + r)[|p|..] == r;
    assert (p + s)[|p|..] == s;
  }

  predicate KindAgrees(a: Json, b: Json) {
    match a
    case Null => b.Null?
    case Bool(x) => b == Bool(x)
    case Num(_) => b.Num?
    case Str(_) => b.Str?
    case Arr(_) => b.Arr?
    case Obj(_) => b.Obj?
  }

  lemma SameKind(a: Json, b: Json, r: JsString, s: JsString)
    requires Valid(a) && Valid(b) && Canonical(a) + r == Canonical(b) + s
    ensures KindAgrees(a, b)
  {
    FirstUnit(a);
    FirstUnit(b);
    var u := Canonical(a)[0];
    assert (Canonical(a) + r)[0] == u;
    assert (Canonical(b) + s)[0] == u;
    KindFromUnit(a, b, u);
  }

  lemma KindFromUnit(a: Json, b: Json, u: CodeUnit)
    requires StartsLike(a, u) && StartsLike(b, u)
    ensures KindAgrees(a, b)
  {
  }

  lemma {:induction false} TextUnique(a: Json, b: Json, r: JsString, s: JsString)
    requires Valid(a) && Valid(b) && Delimited(r) && Delimited(s)
    requires Canonical(a) + r == Canonical(b) + s
    ensures Equivalent(a, b) && Canonical(a) == Canonical(b) && r == s
    decreases a
  {
    SameKind(a, b, r, s);
    match a {
      case Null => CutPrefix(Canonical(a), r, s);
      case Bool(_) => CutPrefix(Canonical(a), r, s);
      case Num(x) =>
        NumbersUnique(x, b.n, r, s);
        NumberTextInjective(x, b.n);
      case Str(x) => QuotedUnique(x, b.s, r, s);
      case Arr(xs) =>
        Regroup([OPEN_ARRAY], ItemsText(xs), r);
        Regroup([OPEN_ARRAY], ItemsText(b.items), s);
        CutPrefix([OPEN_ARRAY], ItemsText(xs) + r, ItemsText(b.items) + s);
        ItemsUnique(xs, b.items, r, s);
      case Obj(xs) =>
        var es, fs := SortByKey(Entries(xs)), SortByKey(Entries(b.members));
        Regroup([OPEN_OBJECT], EntriesText(es), r);
        Regroup([OPEN_OBJECT], EntriesText(fs), s);
        CutPrefix([OPEN_OBJECT], EntriesText(es) + r, EntriesText(fs) + s);
        ObjectUnique(xs, b.members, r, s);
    }
  }

  /** What follows the first of n printed parts: the closing unit, or a comma and the other parts. */
  function After(n: nat, close: CodeUnit, others: JsString, r: JsString): JsString {
    if n == 1 then [close] + r else [COMMA] + (others + r)
  }

  lemma AfterUnique(m: nat, n: nat, close: CodeUnit, xs: JsString, ys: JsString, r: JsString, s: JsString)
    requires close != COMMA && After(m, close, xs, r) == After(n, close, ys, s)
    ensures (m == 1) == (n == 1)
    ensures if m == 1 then r == s else xs + r == ys + s
  {
    assert After(m, close, xs, r)[0] == After(n, close, ys, s)[0];
    if m == 1 { CutPrefix([close], r, s); } else { CutPrefix([COMMA], xs + r, ys + s); }
  }

  lemma ItemsStart(xs: seq<Json>, r: JsString)
    requires AllValid(xs)
    ensures xs == [] <==> (ItemsText(xs) + r)[0] == CLOSE_ARRAY
  {
    if xs != [] { FirstUnit(xs[0]); }
  }

  lemma JoinSplit(text: JsString, first: JsString, others: JsString, n: nat, close: CodeUnit, r: JsString)
    requires n == 1 ==> text == first + [close]
    requires n != 1 ==> text == first + [COMMA] + others
    ensures text + r == first + After(n, close, others, r)
  {
    if n == 1 {
      Regroup(first, [close], r);
    } else {
      Regroup(first + [COMMA], others, r);
      Regroup(first, [COMMA], others + r);
    }
  }

  lemma ItemsTextIs(xs: seq<Json>)
    requires AllValid(xs) && xs != []
    ensures |xs| == 1 ==> ItemsText(xs) == Canonical(xs[0]) + [CLOSE_ARRAY]
    ensures |xs| != 1 ==> ItemsText(xs) == Canonical(xs[0]) + [COMMA] + ItemsText(xs[1..])
  {
  }

  lemma {:induction false} ItemsUnique(xs: seq<Json>, ys: seq<Json>, r: JsString, s: JsString)
    requires AllValid(xs) && AllValid(ys)
    requires ItemsText(xs) + r == ItemsText(ys) + s
    ensures |xs| == |ys| && forall i :: 0 <= i < |xs| ==> Equivalent(xs[i], ys[i])
    ensures ItemsText(xs) == ItemsText(ys) && r == s
    decreases xs
  {
    ItemsStart(xs, r);
    ItemsStart(ys, s);
    if xs == [] {
      CutPrefix([CLOSE_ARRAY], r, s);
    } else {
      var p, q := ItemsText(xs[1..]), ItemsText(ys[1..]);
      ItemsTextIs(xs);
      JoinSplit(ItemsText(xs), Canonical(xs[0]), p, |xs|, CLOSE_ARRAY, r);
      ItemsTextIs(ys);
      JoinSplit(ItemsText(ys), Canonical(ys[0]), q, |ys|, CLOSE_ARRAY, s);
      TextUnique(xs[0], ys[0], After(|xs|, CLOSE_ARRAY, p, r), After(|ys|, CLOSE_ARRAY, q, s));
      AfterUnique(|xs|, |ys|, CLOSE_ARRAY, p, q, r, s);
      if |xs| > 1 { ItemsUnique(xs[1..], ys[1..], r, s); }
    }
  }

  /** Every entry prints some visible member. */
  predicate From(es: seq<Entry>, ms: seq<Member>)
    requires MembersValid(ms)
  {
    forall e :: e in es ==> PrintedBy(e, ms)
  }

  lemma SortedEntries(ms: seq<Member>)
    requires MembersValid(ms) && KeysDistinct(ms)
    ensures forall e :: e in SortByKey(Entries(ms)) <==> PrintedBy(e, ms)
  {
    EntryKeysAre(ms);
    SortSorts(Entries(ms));
    forall e
      ensures e in Entries(ms) <==> PrintedBy(e, ms)
    {
      EntriesAre(ms, e);
    }
  }

  lemma {:induction false} ObjectUnique(xs: seq<Member>, ys: seq<Member>, r: JsString, s: JsString)
    requires MembersValid(xs) && MembersValid(ys) && KeysDistinct(xs) && KeysDistinct(ys)
    requires EntriesText(SortByKey(Entries(xs))) + r == EntriesText(SortByKey(Entries(ys))) + s
    ensures Covered(xs, ys) && CoveredBack(xs, ys)
    ensures SortByKey(Entries(xs)) == SortByKey(Entries(ys)) && r == s
    decreases xs, 1, 0, 0
  {
    var es, fs := SortByKey(Entries(xs)), SortByKey(Entries(ys));
    SortedEntries(xs);
    SortedEntries(ys);
    EntriesUnique(es, fs, xs, ys, r, s);
    forall i | 0 <= i < |xs| && !IsSensitiveKey(xs[i].key)
      ensures exists j :: 0 <= j < |ys| && ys[j].key == xs[i].key && Equivalent(xs[i].value, ys[j].value)
    {
      var e := Entry(xs[i].key, Canonical(xs[i].value));
      assert Prints(xs[i], e);
      assert e in es;
      var j :| 0 <= j < |ys| && Prints(ys[j], e);
      TextUnique(xs[i].value, ys[j].value, [], []);
    }
    forall j | 0 <= j < |ys| && !IsSensitiveKey(ys[j].key)
      ensures exists i :: 0 <= i < |xs| && xs[i].key == ys[j].key && Equivalent(xs[i].value, ys[j].value)
    {
      var e := Entry(ys[j].key, Canonical(ys[j].value));
      assert Prints(ys[j], e);
      assert e in fs;
      var i :| 0 <= i < |xs| && Prints(xs[i], e);
      TextUnique(xs[i].value, ys[j].value, [], []);
    }
  }

  lemma EntriesSplit(es: seq<Entry>, r: JsString)
    ensures es == [] ==> EntriesText(es) + r == [CLOSE_OBJECT] + r
    ensures es != [] ==>
              EntriesText(es) + r
              == Quoted(es[0].key) + ([COLON] + (es[0].text + After(|es|, CLOSE_OBJECT, EntriesText(es[1..]), r)))
    ensures es == [] <==> (EntriesText(es) + r)[0] == CLOSE_OBJECT
  {
    if es != [] {
      var e, others := es[0], EntriesText(es[1..]);
      JoinSplit(EntriesText(es), EntryText(e), others, |es|, CLOSE_OBJECT, r);
      var after := After(|es|, CLOSE_OBJECT, others, r);
      assert EntriesText(es) + r == EntryText(e) + after;
      Regroup(Quoted(e.key) + [COLON], e.text, after);
      Regroup(Quoted(e.key), [COLON], e.text + after);
      assert (EntriesText(es) + r)[0] == QUOTE;
    }
  }

  lemma {:induction false} EntriesUnique(es: seq<Entry>, fs: seq<Entry>, xs: seq<Member>, ys: seq<Member>, r: JsString,
                                         s: JsString)
    requires MembersValid(xs) && MembersValid(ys) && From(es, xs) && From(fs, ys)
    requires EntriesText(es) + r == EntriesText(fs) + s
    ensures es == fs && r == s
    decreases xs, 0, |es|, 1
  {
    EntriesSplit(es, r);
    EntriesSplit(fs, s);
    if es == [] {
      CutPrefix([CLOSE_OBJECT], r, s);
    } else {
      var p := After(|es|, CLOSE_OBJECT, EntriesText(es[1..]), r);
      var q := After(|fs|, CLOSE_OBJECT, EntriesText(fs[1..]), s);
      assert es[0] in es && fs[0] in fs;
      FirstEntryUnique(es[0], fs[0], xs, ys, p, q);
      AfterUnique(|es|, |fs|, CLOSE_OBJECT, EntriesText(es[1..]), EntriesText(fs[1..]), r, s);
      assert forall e :: e in es[1..] ==> e in es;
      assert forall f :: f in fs[1..] ==> f in fs;
      if |es| > 1 { EntriesUnique(es[1..], fs[1..], xs, ys, r, s); }
      assert es == [es[0]] + es[1..] && fs == [fs[0]] + fs[1..];
    }
  }

  lemma {:induction false} FirstEntryUnique(e: Entry, f: Entry, xs: seq<Member>, ys: seq<Member>, p: JsString,
                                            q: JsString)
    requires MembersValid(xs) && MembersValid(ys) && Delimited(p) && Delimited(q)
    requires PrintedBy(e, xs) && PrintedBy(f, ys)
    requires Quoted(e.key) + ([COLON] + (e.text + p)) == Quoted(f.key) + ([COLON] + (f.text + q))
    ensures e == f && p == q
    decreases xs, 0, 0, 0
  {
    QuotedUnique(e.key, f.key, [COLON] + (e.text + p), [COLON] + (f.text + q));
    CutPrefix([COLON], e.text + p, f.text + q);
    var i :| 0 <= i < |xs| && Prints(xs[i], e);
    var j :| 0 <= j < |ys| && Prints(ys[j], f);
    TextUnique(xs[i].value, ys[j].value, p, q);
  }

  /** The canonical text decides exactly equality up to sensitive members and member order. */
  lemma CanonicalDecidesEquivalence(a: Json, b: Json)
    requires Valid(a) && Valid(b)
    ensures Canonical(a) == Canonical(b) <==> Equivalent(a, b)
  {
    if Canonical(a) == Canonical(b) { TextUnique(a, b, [], []); }
    if Equivalent(a, b) { EquivalentSameText(a, b); }
  }
}
