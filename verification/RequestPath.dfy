/** The normal form of a request path: slashes merged, query parameters in a fixed order. Parsing a query
    string into parameters and percent-encoding are parameters of the model. */
module RequestPath {
  import opened Common
  import opened JsStrings

  const SLASH: CodeUnit := 47
  const QUESTION: CodeUnit := 63
  const AMPERSAND: CodeUnit := 38
  const EQUALS: CodeUnit := 61

  datatype Param = Param(key: JsString, value: JsString)

  type Parser = JsString -> seq<Param>
  type Encoder = JsString -> JsString

  // ----- Pathname -----------------------------------------------------------------------------

  /** Every run of slashes becomes one. */
  function MergeSlashes(s: JsString): JsString {
    if s == [] then []
    else if s[0] == SLASH && |s| > 1 && s[1] == SLASH then MergeSlashes(s[1..])
    else [s[0]] + MergeSlashes(s[1..])
  }

  function NormalPathname(pathname: JsString): JsString {
    var merged := MergeSlashes(pathname);
    var rooted := if merged != [] && merged[0] == SLASH then merged else [SLASH] + merged;
    if |rooted| > 1 && rooted[|rooted| - 1] == SLASH then rooted[..|rooted| - 1] else rooted
  }

  predicate NoDoubleSlash(s: JsString) {
    forall i :: 0 <= i < |s| - 1 ==> !SlashPair(s, i)
  }

  predicate SlashPair(s: JsString, i: nat)
    requires i + 1 < |s|
  {
    s[i] == SLASH && s[i + 1] == SLASH
  }

  /** Rooted, no empty segment, no trailing slash except in the root. */
  predicate NormalForm(s: JsString) {
    s != [] && s[0] == SLASH && NoDoubleSlash(s) && (|s| > 1 ==> s[|s| - 1] != SLASH)
  }

  lemma {:induction false} MergedHasNoPair(s: JsString)
    ensures NoDoubleSlash(MergeSlashes(s))
    ensures s != [] ==> MergeSlashes(s) != [] && MergeSlashes(s)[0] == s[0]
  {
    if s != [] {
      MergedHasNoPair(s[1..]);
      var m, tail := MergeSlashes(s), MergeSlashes(s[1..]);
      if m == [s[0]] + tail {
        forall i | 0 <= i < |m| - 1
          ensures !SlashPair(m, i)
        {
          if i > 0 { assert !SlashPair(tail, i - 1); }
        }
      }
    }
  }

  lemma {:induction false} MergeLeaves(s: JsString)
    requires NoDoubleSlash(s)
    ensures MergeSlashes(s) == s
  {
    if s != [] {
      assert |s| > 1 ==> !SlashPair(s, 0);
      forall i | 0 <= i < |s[1..]| - 1
        ensures !SlashPair(s[1..], i)
      {
        assert !SlashPair(s, i + 1);
      }
      MergeLeaves(s[1..]);
      assert s == [s[0]] + s[1..];
    }
  }

  /** The result is in normal form, and a normal form is its own result. */
  lemma PathnameIsNormal(pathname: JsString)
    ensures NormalForm(NormalPathname(pathname))
    ensures NormalForm(pathname) ==> NormalPathname(pathname) == pathname
  {
    var merged := MergeSlashes(pathname);
    MergedHasNoPair(pathname);
    var rooted := if merged != [] && merged[0] == SLASH then merged else [SLASH] + merged;
    forall i | 0 <= i < |rooted| - 1
      ensures !SlashPair(rooted, i)
    {
      if rooted == merged { assert !SlashPair(merged, i); }
      else if i > 0 { assert !SlashPair(merged, i - 1); }
    }
    ShorterHasNoPair(rooted);
    if |rooted| > 1 { assert !SlashPair(rooted, |rooted| - 2); }
    if NormalForm(pathname) { MergeLeaves(pathname); }
  }

  lemma ShorterHasNoPair(s: JsString)
    requires s != [] && NoDoubleSlash(s)
    ensures NoDoubleSlash(s[..|s| - 1])
  {
    var t := s[..|s| - 1];
    assert forall i :: 0 <= i < |t| - 1 ==> SlashPair(t, i) == SlashPair(s, i);
  }

  lemma {:induction false} MergeAddsNothing(s: JsString, u: CodeUnit)
    requires u !in s
    ensures u !in MergeSlashes(s)
  {
    if s != [] { MergeAddsNothing(s[1..], u); }
  }

  // ----- Sorted strings -----------------------------------------------------------------------

  function InsertString(x: JsString, sorted: seq<JsString>): seq<JsString> {
    if sorted == [] || !Less(sorted[0], x) then [x] + sorted else [sorted[0]] + InsertString(x, sorted[1..])
  }

  /** `sort()` of strings. */
  function SortStrings(s: seq<JsString>): seq<JsString> {
    if s == [] then [] else InsertString(s[0], SortStrings(s[1..]))
  }

  predicate LessOrEqual(a: JsString, b: JsString) {
    a == b || Less(a, b)
  }

  predicate SortedStrings(s: seq<JsString>) {
    forall i, j :: 0 <= i < j < |s| ==> LessOrEqual(s[i], s[j])
  }

  lemma OrderIsTotal(a: JsString, b: JsString)
    ensures LessOrEqual(a, b) || Less(b, a)
    ensures !(LessOrEqual(a, b) && Less(b, a))
  {
    LessTotal(a, b);
  }

  lemma OrderIsTransitive(a: JsString, b: JsString, c: JsString)
    requires LessOrEqual(a, b) && LessOrEqual(b, c)
    ensures LessOrEqual(a, c)
  {
    if a != b && b != c { LessTransitive(a, b, c); }
  }

  lemma {:induction false} InsertSorts(x: JsString, sorted: seq<JsString>)
    requires SortedStrings(sorted)
    ensures SortedStrings(InsertString(x, sorted))
    ensures multiset(InsertString(x, sorted)) == multiset(sorted) + multiset{x}
  {
    if sorted == [] {
    } else if !Less(sorted[0], x) {
      OrderIsTotal(x, sorted[0]);
      forall i | 0 <= i < |sorted|
        ensures LessOrEqual(x, sorted[i])
      {
        if i > 0 { OrderIsTransitive(x, sorted[0], sorted[i]); }
      }
    } else {
      InsertSorts(x, sorted[1..]);
      var tail := InsertString(x, sorted[1..]);
      assert sorted == [sorted[0]] + sorted[1..];
      forall i | 0 <= i < |tail|
        ensures LessOrEqual(sorted[0], tail[i])
      {
        assert tail[i] in multiset(tail);
        if tail[i] != x { assert tail[i] in sorted[1..]; }
      }
    }
  }

  lemma {:induction false} SortSorts(s: seq<JsString>)
    ensures SortedStrings(SortStrings(s)) && multiset(SortStrings(s)) == multiset(s)
  {
    if s != [] {
      SortSorts(s[1..]);
      InsertSorts(s[0], SortStrings(s[1..]));
      assert s == [s[0]] + s[1..];
    }
  }

  // ----- Parameters in order ------------------------------------------------------------------

  function Keys(params: seq<Param>): seq<JsString> {
    seq(|params|, i requires 0 <= i < |params| => params[i].key)
  }

  /** `Array.from(new Set(s))`. */
  function Unique(s: seq<JsString>): seq<JsString> {
    if s == [] then []
    else
      var init := Unique(s[..|s| - 1]);
      if s[|s| - 1] in init then init else init + [s[|s| - 1]]
  }

  /** `params.getAll(key)`. */
  function GetAll(params: seq<Param>, key: JsString): seq<JsString> {
    if params == [] then []
    else (if params[0].key == key then [params[0].value] else []) + GetAll(params[1..], key)
  }

  function Group(key: JsString, values: seq<JsString>): seq<Param> {
    seq(|values|, i requires 0 <= i < |values| => Param(key, values[i]))
  }

  /** All parameters, key by key. */
  function Arrange(keys: seq<JsString>, params: seq<Param>): seq<Param> {
    if keys == [] then []
    else Arrange(keys[..|keys| - 1], params) + Group(keys[|keys| - 1], SortStrings(GetAll(params, keys[|keys| - 1])))
  }

  function Arranged(params: seq<Param>): seq<Param> {
    Arrange(SortStrings(Unique(Keys(params))), params)
  }

  predicate Before(a: Param, b: Param) {
    Less(a.key, b.key) || (a.key == b.key && LessOrEqual(a.value, b.value))
  }

  predicate SortedParams(s: seq<Param>) {
    forall i, j :: 0 <= i < j < |s| ==> Before(s[i], s[j])
  }

  lemma {:induction false} UniqueMeans(s: seq<JsString>)
    ensures forall k :: k in Unique(s) <==> k in s
    ensures forall i, j :: 0 <= i < j < |Unique(s)| ==> Unique(s)[i] != Unique(s)[j]
  {
    if s != [] {
      UniqueMeans(s[..|s| - 1]);
      assert s == s[..|s| - 1] + [s[|s| - 1]];
    }
  }

  lemma {:induction false} GetAllCounts(params: seq<Param>, key: JsString, value: JsString)
    ensures multiset(GetAll(params, key))[value] == multiset(params)[Param(key, value)]
  {
    if params != [] {
      GetAllCounts(params[1..], key, value);
      assert params == [params[0]] + params[1..];
    }
  }

  lemma {:induction false} GroupCounts(key: JsString, values: seq<JsString>, p: Param)
    ensures multiset(Group(key, values))[p] == if p.key == key then multiset(values)[p.value] else 0
  {
    if values != [] {
      GroupCounts(key, values[1..], p);
      assert values == [values[0]] + values[1..];
      assert Group(key, values) == [Param(key, values[0])] + Group(key, values[1..]);
    }
  }

  lemma {:induction false} ArrangeCounts(keys: seq<JsString>, params: seq<Param>, p: Param)
    requires forall i, j :: 0 <= i < j < |keys| ==> keys[i] != keys[j]
    ensures multiset(Arrange(keys, params))[p] == if p.key in keys then multiset(params)[p] else 0
  {
    if keys != [] {
      var init, last := keys[..|keys| - 1], keys[|keys| - 1];
      assert keys == init + [last];
      ArrangeCounts(init, params, p);
      SortSorts(GetAll(params, last));
      GroupCounts(last, SortStrings(GetAll(params, last)), p);
      if p.key == last { GetAllCounts(params, last, p.value); }
    }
  }

  lemma GroupSorted(key: JsString, values: seq<JsString>)
    requires SortedStrings(values)
    ensures SortedParams(Group(key, values))
  {
  }

  lemma {:induction false} ArrangeKeys(keys: seq<JsString>, params: seq<Param>, p: Param)
    requires p in Arrange(keys, params)
    ensures p.key in keys
  {
    var init, last := keys[..|keys| - 1], keys[|keys| - 1];
    if p in Arrange(init, params) { ArrangeKeys(init, params, p); }
  }

  lemma {:induction false} ArrangeSorts(keys: seq<JsString>, params: seq<Param>)
    requires SortedStrings(keys) && forall i, j :: 0 <= i < j < |keys| ==> keys[i] != keys[j]
    ensures SortedParams(Arrange(keys, params))
  {
    if keys != [] {
      var init, last := keys[..|keys| - 1], keys[|keys| - 1];
      ArrangeSorts(init, params);
      SortSorts(GetAll(params, last));
      var front, group := Arrange(init, params), Group(last, SortStrings(GetAll(params, last)));
      GroupSorted(last, SortStrings(GetAll(params, last)));
      forall i, j | 0 <= i < |front| && 0 <= j < |group|
        ensures Before(front[i], group[j])
      {
        ArrangeKeys(init, params, front[i]);
        var k :| 0 <= k < |init| && init[k] == front[i].key;
        assert LessOrEqual(keys[k], keys[|keys| - 1]);
      }
    }
  }

  lemma {:induction false} SortedDistinct(s: seq<JsString>)
    requires forall i, j :: 0 <= i < j < |s| ==> s[i] != s[j]
    ensures forall i, j :: 0 <= i < j < |SortStrings(s)| ==> SortStrings(s)[i] != SortStrings(s)[j]
    ensures forall k :: k in SortStrings(s) <==> k in s
  {
    SortSorts(s);
    var t := SortStrings(s);
    forall k
      ensures k in t <==> k in s
    {
      assert k in t <==> k in multiset(t);
      assert k in s <==> k in multiset(s);
    }
    DistinctCounts(s);
    CountsDistinct(t);
  }

  lemma {:induction false} DistinctCounts(s: seq<JsString>)
    requires forall i, j :: 0 <= i < j < |s| ==> s[i] != s[j]
    ensures forall k :: multiset(s)[k] <= 1
  {
    if s != [] {
      DistinctCounts(s[1..]);
      assert s == [s[0]] + s[1..];
      assert s[0] !in s[1..];
      assert s[0] !in multiset(s[1..]);
    }
  }

  lemma {:induction false} CountsDistinct(s: seq<JsString>)
    requires forall k :: multiset(s)[k] <= 1
    ensures forall i, j :: 0 <= i < j < |s| ==> s[i] != s[j]
  {
    if s != [] {
      assert s == [s[0]] + s[1..];
      assert multiset(s) == multiset{s[0]} + multiset(s[1..]);
      forall k
        ensures multiset(s[1..])[k] <= 1
      {
        assert multiset(s)[k] <= 1;
      }
      CountsDistinct(s[1..]);
      forall j | 0 < j < |s|
        ensures s[0] != s[j]
      {
        assert s[j] == s[1..][j - 1] && s[j] in multiset(s[1..]);
        assert multiset(s)[s[0]] <= 1;
      }
    }
  }

  /** Nothing is lost or added, and the order is by key and then by value. */
  lemma ArrangedIsArrangement(params: seq<Param>)
    ensures SortedParams(Arranged(params)) && multiset(Arranged(params)) == multiset(params)
  {
    var keys := SortStrings(Unique(Keys(params)));
    UniqueMeans(Keys(params));
    SortedDistinct(Unique(Keys(params)));
    SortSorts(Unique(Keys(params)));
    ArrangeSorts(keys, params);
    forall p
      ensures multiset(Arranged(params))[p] == multiset(params)[p]
    {
      ArrangeCounts(keys, params, p);
      if p in multiset(params) {
        var i :| 0 <= i < |params| && params[i] == p;
        assert Keys(params)[i] == p.key;
      }
    }
  }

  lemma BeforeBoth(a: Param, b: Param)
    requires Before(a, b) && Before(b, a)
    ensures a == b
  {
    LessTotal(a.key, b.key);
    OrderIsTotal(a.value, b.value);
  }

  lemma FirstOfSorted(xs: seq<Param>, ys: seq<Param>)
    requires SortedParams(xs) && SortedParams(ys) && multiset(xs) == multiset(ys) && xs != [] && ys != []
    ensures xs[0] == ys[0]
  {
    assert xs[0] in multiset(ys) && ys[0] in multiset(xs);
    var i :| 0 <= i < |ys| && ys[i] == xs[0];
    var j :| 0 <= j < |xs| && xs[j] == ys[0];
    if i > 0 && j > 0 { BeforeBoth(xs[0], ys[0]); }
  }

  /** There is only one ordered arrangement. */
  lemma {:induction false} ArrangementUnique(xs: seq<Param>, ys: seq<Param>)
    requires SortedParams(xs) && SortedParams(ys) && multiset(xs) == multiset(ys)
    ensures xs == ys
  {
    assert |multiset(xs)| == |xs| && |multiset(ys)| == |ys|;
    if xs != [] {
      FirstOfSorted(xs, ys);
      assert xs == [xs[0]] + xs[1..] && ys == [ys[0]] + ys[1..];
      assert multiset(xs[1..]) == multiset(xs) - multiset{xs[0]};
      assert multiset(ys[1..]) == multiset(ys) - multiset{ys[0]};
      ArrangementUnique(xs[1..], ys[1..]);
    }
  }

  lemma ArrangedDecides(params: seq<Param>, params': seq<Param>)
    ensures Arranged(params) == Arranged(params') <==> multiset(params) == multiset(params')
  {
    ArrangedIsArrangement(params);
    ArrangedIsArrangement(params');
    if multiset(params) == multiset(params') { ArrangementUnique(Arranged(params), Arranged(params')); }
  }

  // ----- The normal path ----------------------------------------------------------------------

  function PartText(encode: Encoder, p: Param): JsString {
    encode(p.key) + [EQUALS] + encode(p.value)
  }

  function PartTexts(encode: Encoder, params: seq<Param>): seq<JsString> {
    seq(|params|, i requires 0 <= i < |params| => PartText(encode, params[i]))
  }

  /** Pathname and parameters of a path: what stands before the first '?', and before the second. */
  datatype Target = Target(pathname: JsString, params: seq<Param>)

  function TargetOf(parse: Parser, raw: JsString): Target {
    var parts := Split(Trim(raw), QUESTION);
    Target(NormalPathname(parts[0]), if |parts| > 1 then parse(parts[1]) else [])
  }

  function TargetText(encode: Encoder, t: Target): JsString {
    var parts := PartTexts(encode, Arranged(t.params));
    if parts == [] then t.pathname else t.pathname + ([QUESTION] + Joined(parts, AMPERSAND))
  }

  lemma ArrangeStep(keys: seq<JsString>, i: nat, params: seq<Param>)
    requires i < |keys|
    ensures Arrange(keys[..i + 1], params)
            == Arrange(keys[..i], params) + Group(keys[i], SortStrings(GetAll(params, keys[i])))
  {
    assert keys[..i + 1][..i] == keys[..i];
  }

  lemma PartTextsConcat(encode: Encoder, xs: seq<Param>, ys: seq<Param>)
    ensures PartTexts(encode, xs + ys) == PartTexts(encode, xs) + PartTexts(encode, ys)
  {
  }

  lemma PartTextsStep(encode: Encoder, key: JsString, values: seq<JsString>, j: nat)
    requires j < |values|
    ensures PartTexts(encode, Group(key, values[..j + 1]))
            == PartTexts(encode, Group(key, values[..j])) + [PartText(encode, Param(key, values[j]))]
  {
    assert Group(key, values[..j + 1]) == Group(key, values[..j]) + [Param(key, values[j])];
    PartTextsConcat(encode, Group(key, values[..j]), [Param(key, values[j])]);
  }

  /** The nested loops over sorted keys and sorted values. */
  method QueryParts(encode: Encoder, params: seq<Param>) returns (parts: seq<JsString>)
    ensures parts == PartTexts(encode, Arranged(params))
  {
    var keys := SortStrings(Unique(Keys(params)));
    parts := [];
    var i := 0;
    while i < |keys|
      invariant 0 <= i <= |keys|
      invariant parts == PartTexts(encode, Arrange(keys[..i], params))
    {
      var key, values := keys[i], SortStrings(GetAll(params, keys[i]));
      ghost var before := parts;
      var j := 0;
      while j < |values|
        invariant 0 <= j <= |values|
        invariant parts == before + PartTexts(encode, Group(key, values[..j]))
      {
        PartTextsStep(encode, key, values, j);
        parts := parts + [PartText(encode, Param(key, values[j]))];
        j := j + 1;
      }
      assert values[..j] == values;
      ArrangeStep(keys, i, params);
      PartTextsConcat(encode, Arrange(keys[..i], params), Group(key, values));
      i := i + 1;
    }
    assert keys[..i] == keys;
  }

  /** A blank path is the root. */
  method NormalizePath(parse: Parser, encode: Encoder, raw: JsString) returns (path: JsString)
    ensures path == TargetText(encode, TargetOf(parse, raw))
  {
    var trimmed := Trim(raw);
    if trimmed == [] {
      assert Split([], QUESTION) == [[]] && MergeSlashes([]) == [];
      return [SLASH];
    }
    var pieces := Split(trimmed, QUESTION);
    path := NormalPathname(pieces[0]);
    if |pieces| > 1 {
      var parts := QueryParts(encode, parse(pieces[1]));
      if |parts| > 0 { path := path + ([QUESTION] + Joined(parts, AMPERSAND)); }
    }
  }

  /** On strings without lone surrogates, percent-encoding keeps texts apart and leaves no separator. */
  ghost predicate GoodEncoding(encode: Encoder) {
    && (forall s :: WellFormed(s) ==> AMPERSAND !in encode(s) && EQUALS !in encode(s) && QUESTION !in encode(s))
    && (forall s, t :: WellFormed(s) && WellFormed(t) && encode(s) == encode(t) ==> s == t)
  }

  predicate WellFormedParams(params: seq<Param>) {
    forall i :: 0 <= i < |params| ==> WellFormed(params[i].key) && WellFormed(params[i].value)
  }

  /** Parsing a query never yields a lone surrogate. */
  ghost predicate GoodParser(parse: Parser) {
    forall s :: WellFormedParams(parse(s))
  }

  lemma ArrangedIsWellFormed(params: seq<Param>)
    requires WellFormedParams(params)
    ensures WellFormedParams(Arranged(params))
  {
    ArrangedIsArrangement(params);
    var arranged := Arranged(params);
    forall i | 0 <= i < |arranged|
      ensures WellFormed(arranged[i].key) && WellFormed(arranged[i].value)
    {
      assert arranged[i] in multiset(arranged);
      var k :| 0 <= k < |params| && params[k] == arranged[i];
    }
  }

  lemma PartUnique(encode: Encoder, p: Param, q: Param)
    requires GoodEncoding(encode) && WellFormedParams([p, q]) && PartText(encode, p) == PartText(encode, q)
    ensures p == q
  {
    assert [p, q][0] == p && [p, q][1] == q;
    SplitAt(encode(p.key), EQUALS, encode(p.value));
    SplitAt(encode(q.key), EQUALS, encode(q.value));
    SplitNone(encode(p.value), EQUALS);
    SplitNone(encode(q.value), EQUALS);
    var parts := Split(PartText(encode, p), EQUALS);
    assert parts[0] == encode(p.key) && parts[1] == encode(p.value);
    assert parts[0] == encode(q.key) && parts[1] == encode(q.value);
  }

  lemma PartsArePlain(encode: Encoder, params: seq<Param>)
    requires GoodEncoding(encode) && WellFormedParams(params)
    ensures forall i :: 0 <= i < |params| ==> AMPERSAND !in PartTexts(encode, params)[i]
  {
    forall i | 0 <= i < |params|
      ensures AMPERSAND !in PartTexts(encode, params)[i]
    {
      var p := params[i];
      assert AMPERSAND !in encode(p.key) && AMPERSAND !in encode(p.value);
    }
  }

  lemma QueriesUnique(encode: Encoder, xs: seq<Param>, ys: seq<Param>)
    requires GoodEncoding(encode) && WellFormedParams(xs) && WellFormedParams(ys) && xs != [] && ys != []
    requires Joined(PartTexts(encode, xs), AMPERSAND) == Joined(PartTexts(encode, ys), AMPERSAND)
    ensures xs == ys
  {
    var ps, qs := PartTexts(encode, xs), PartTexts(encode, ys);
    PartsArePlain(encode, xs);
    PartsArePlain(encode, ys);
    IsSplitIff(Joined(ps, AMPERSAND), AMPERSAND, ps);
    IsSplitIff(Joined(qs, AMPERSAND), AMPERSAND, qs);
    forall i | 0 <= i < |xs|
      ensures xs[i] == ys[i]
    {
      assert ps[i] == qs[i];
      PartUnique(encode, xs[i], ys[i]);
    }
  }

  lemma {:induction false} FirstPiece(s: JsString, sep: CodeUnit)
    ensures sep !in Split(s, sep)[0]
  {
    if s != [] { FirstPiece(s[1..], sep); }
  }

  lemma PathnameHasNoQuestion(parse: Parser, raw: JsString)
    ensures QUESTION !in TargetOf(parse, raw).pathname
  {
    var trimmed := Trim(raw);
    FirstPiece(trimmed, QUESTION);
    MergeAddsNothing(Split(trimmed, QUESTION)[0], QUESTION);
  }

  /** Texts of two targets that agree up to the first '?'. */
  lemma TextsAgree(a: JsString, b: JsString, r: JsString, s: JsString)
    requires QUESTION !in a && QUESTION !in b
    ensures a + ([QUESTION] + r) == b + ([QUESTION] + s) <==> a == b && r == s
    ensures a + ([QUESTION] + r) != b
  {
    SplitAt(a, QUESTION, r);
    SplitAt(b, QUESTION, s);
    assert a + ([QUESTION] + r) == a + [QUESTION] + r && b + ([QUESTION] + s) == b + [QUESTION] + s;
    assert (a + [QUESTION] + r)[|a|] == QUESTION;
    if a + ([QUESTION] + r) == b + ([QUESTION] + s) {
      assert ([a] + Split(r, QUESTION))[0] == a && ([b] + Split(s, QUESTION))[0] == b;
      assert (a + [QUESTION] + r)[|a| + 1..] == r && (b + [QUESTION] + s)[|b| + 1..] == s;
    }
  }

  /** Two paths have the same normal form if and only if their pathnames agree up to slashes and their
      queries hold the same parameters, each as often, in whatever order. */
  lemma NormalPathDecides(parse: Parser, encode: Encoder, raw: JsString, raw': JsString)
    requires GoodParser(parse) && GoodEncoding(encode)
    ensures var t, t' := TargetOf(parse, raw), TargetOf(parse, raw');
            TargetText(encode, t) == TargetText(encode, t')
            <==> t.pathname == t'.pathname && multiset(t.params) == multiset(t'.params)
  {
    var t, t' := TargetOf(parse, raw), TargetOf(parse, raw');
    PathnameHasNoQuestion(parse, raw);
    PathnameHasNoQuestion(parse, raw');
    ArrangedDecides(t.params, t'.params);
    ArrangedIsWellFormed(t.params);
    ArrangedIsWellFormed(t'.params);
    var xs, ys := Arranged(t.params), Arranged(t'.params);
    var r, s := Joined(PartTexts(encode, xs), AMPERSAND), Joined(PartTexts(encode, ys), AMPERSAND);
    TextsAgree(t.pathname, t'.pathname, r, s);
    TextsAgree(t'.pathname, t.pathname, s, r);
    if xs != [] && ys != [] && r == s { QueriesUnique(encode, xs, ys); }
  }

  /** What follows a second '?' is lost: such paths share their normal form, whatever it is. */
  lemma SecondQueryIsLost(parse: Parser, encode: Encoder, pathname: JsString, query: JsString, rest: JsString)
    requires QUESTION !in pathname && QUESTION !in query
    requires Trim(pathname + [QUESTION] + query) == pathname + [QUESTION] + query
    requires var long := pathname + [QUESTION] + (query + [QUESTION] + rest); Trim(long) == long
    ensures TargetOf(parse, pathname + [QUESTION] + (query + [QUESTION] + rest))
            == TargetOf(parse, pathname + [QUESTION] + query)
  {
    SplitAt(pathname, QUESTION, query + [QUESTION] + rest);
    SplitAt(query, QUESTION, rest);
    SplitAt(pathname, QUESTION, query);
    SplitNone(query, QUESTION);
  }
}
