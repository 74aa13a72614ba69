/** The text that is hashed into a request fingerprint: method, path, company and canonical body joined
    by '|'. The path may itself contain '|', as may strings in the body; the text still determines all
    four parts, exactly if method and company contain none. */
module Fingerprint {
  import opened Common
  import opened JsStrings
  import opened CanonicalJson
  import opened CanonicalNumbers
  import opened CanonicalTheorems
  import RequestPath

  const PIPE: CodeUnit := 124

  predicate ValidBody(body: Option<Json>) {
    body.Some? ==> Valid(body.value)
  }

  function BodyText(body: Option<Json>): JsString
    requires ValidBody(body)
  {
    if body.None? then [] else Canonical(body.value)
  }

  predicate SameBody(a: Option<Json>, b: Option<Json>) {
    a.Some? == b.Some? && (a.Some? ==> Equivalent(a.value, b.value))
  }

  /** Everything before the body. */
  function Head(verb: JsString, path: JsString, company: JsString): JsString {
    verb + ([PIPE] + (path + ([PIPE] + company)))
  }

  /** The hashed text; a request without body contributes the empty text. */
  function Preimage(verb: JsString, path: JsString, company: JsString, body: Option<Json>): JsString
    requires ValidBody(body)
  {
    Head(verb, path, company) + ([PIPE] + BodyText(body))
  }

  /** Free of '|', '"' and '\'. */
  predicate Plain(s: JsString) {
    forall i :: 0 <= i < |s| ==> s[i] != PIPE && s[i] != QUOTE && s[i] != BACKSLASH
  }

  // ----- Quotation state along a text ---------------------------------------------------------

  /** Where a reader of canonical text stands: outside strings, inside one, after a backslash in one,
      or at something that canonical text does not have there. */
  datatype State = Outside | Inside | Escaping | Broken

  function Advance(q: State, u: CodeUnit): State {
    match q
    case Outside => if u == QUOTE then Inside else if u == BACKSLASH || u == PIPE then Broken else Outside
    case Inside => if u == QUOTE then Outside else if u == BACKSLASH then Escaping else Inside
    case Escaping => if u in {98, 116, 110, 102, 114, QUOTE, BACKSLASH, LETTER_U} then Inside else Broken
    case Broken => Broken
  }

  function Scan(q: State, t: JsString): State
    decreases t
  {
    if t == [] then q else Scan(Advance(q, t[0]), t[1..])
  }

  lemma {:induction false} ScanConcat(q: State, a: JsString, b: JsString)
    ensures Scan(q, a + b) == Scan(Scan(q, a), b)
    decreases a
  {
    if a == [] {
      assert a + b == b;
    } else {
      assert (a + b)[1..] == a[1..] + b;
      ScanConcat(Advance(q, a[0]), a[1..], b);
    }
  }

  lemma {:induction false} BrokenStays(t: JsString)
    ensures Scan(Broken, t) == Broken
  {
    if t != [] { BrokenStays(t[1..]); }
  }

  lemma {:induction false} PlainStays(t: JsString)
    requires Plain(t)
    ensures Scan(Outside, t) == Outside && Scan(Inside, t) == Inside
  {
    if t != [] { PlainStays(t[1..]); }
  }

  /** Read from outside it ends outside; read from inside a string it never ends outside. */
  predicate Balanced(t: JsString) {
    Scan(Outside, t) == Outside && (Scan(Inside, t) == Inside || Scan(Inside, t) == Broken)
  }

  lemma BalancedConcat(a: JsString, b: JsString)
    requires Balanced(a) && Balanced(b)
    ensures Balanced(a + b)
  {
    ScanConcat(Outside, a, b);
    ScanConcat(Inside, a, b);
    BrokenStays(b);
  }

  lemma PlainBalanced(t: JsString)
    requires Plain(t)
    ensures Balanced(t)
  {
    PlainStays(t);
  }

  /** The body of a string, read from inside, ends inside; read from outside, stays outside or breaks. */
  predicate StringBody(t: JsString) {
    Scan(Inside, t) == Inside && (Scan(Outside, t) == Outside || Scan(Outside, t) == Broken)
  }

  lemma StringBodyConcat(a: JsString, b: JsString)
    requires StringBody(a) && StringBody(b)
    ensures StringBody(a + b)
  {
    ScanConcat(Outside, a, b);
    ScanConcat(Inside, a, b);
    BrokenStays(b);
  }

  lemma OneUnit(q: State, u: CodeUnit)
    ensures Scan(q, [u]) == Advance(q, u)
  {
    assert [u][1..] == [];
  }

  lemma EscapedPair(u: CodeUnit)
    requires u in {98, 116, 110, 102, 114, QUOTE, BACKSLASH, LETTER_U}
    ensures StringBody([BACKSLASH, u])
  {
    assert [BACKSLASH, u][1..] == [u];
    OneUnit(Escaping, u);
    BrokenStays([u]);
  }

  lemma UnitBody(u: CodeUnit)
    ensures StringBody(EscapeUnit(u))
  {
    var e := EscapeUnit(u);
    if |e| == 1 {
      OneUnit(Inside, u);
      OneUnit(Outside, u);
    } else if |e| == 2 {
      EscapedPair(e[1]);
    } else {
      EscapedPair(LETTER_U);
      PlainStays(e[2..]);
      assert e == [BACKSLASH, LETTER_U] + e[2..];
      StringBodyConcat([BACKSLASH, LETTER_U], e[2..]);
    }
  }

  lemma {:induction false} EscapeBody(s: JsString)
    ensures StringBody(Escape(s))
  {
    if s == [] {
    } else if IsLead(s[0]) && |s| > 1 && IsTrail(s[1]) {
      EscapeBody(s[2..]);
      PlainStays(s[..2]);
      StringBodyConcat(s[..2], Escape(s[2..]));
    } else {
      EscapeBody(s[1..]);
      UnitBody(s[0]);
      StringBodyConcat(EscapeUnit(s[0]), Escape(s[1..]));
    }
  }

  lemma QuotedBalanced(s: JsString)
    ensures Balanced(Quoted(s))
  {
    var e := Escape(s);
    EscapeBody(s);
    BrokenStays([QUOTE]);
    forall q: State
      ensures Scan(q, Quoted(s)) == Scan(Scan(Advance(q, QUOTE), e), [QUOTE])
    {
      OneUnit(q, QUOTE);
      ScanConcat(q, [QUOTE], e);
      ScanConcat(q, [QUOTE] + e, [QUOTE]);
    }
    OneUnit(Inside, QUOTE);
    OneUnit(Outside, QUOTE);
  }

  lemma {:induction false} CanonicalBalanced(v: Json)
    requires Valid(v)
    ensures Balanced(Canonical(v))
    decreases v
  {
    match v {
      case Null => PlainBalanced(Canonical(v));
      case Bool(_) => PlainBalanced(Canonical(v));
      case Num(n) =>
        NumberUnits(n);
        PlainBalanced(NumberText(n));
      case Str(s) => QuotedBalanced(s);
      case Arr(items) =>
        PlainBalanced([OPEN_ARRAY]);
        ItemsBalanced(items);
        BalancedConcat([OPEN_ARRAY], ItemsText(items));
      case Obj(members) =>
        PlainBalanced([OPEN_OBJECT]);
        MembersBalanced(members);
        BalancedConcat([OPEN_OBJECT], EntriesText(SortByKey(Entries(members))));
    }
  }

  lemma {:induction false} ItemsBalanced(items: seq<Json>)
    requires AllValid(items)
    ensures Balanced(ItemsText(items))
    decreases items
  {
    PlainBalanced([CLOSE_ARRAY]);
    PlainBalanced([COMMA]);
    if items != [] {
      CanonicalBalanced(items[0]);
      ItemsTextIs(items);
      BalancedConcat(Canonical(items[0]), [CLOSE_ARRAY]);
      BalancedConcat(Canonical(items[0]), [COMMA]);
      ItemsBalanced(items[1..]);
      BalancedConcat(Canonical(items[0]) + [COMMA], ItemsText(items[1..]));
    }
  }

  lemma {:induction false} MembersBalanced(members: seq<Member>)
    requires MembersValid(members) && KeysDistinct(members)
    ensures Balanced(EntriesText(SortByKey(Entries(members))))
    decreases members
  {
    SortedEntries(members);
    var es := SortByKey(Entries(members));
    forall i | 0 <= i < |es|
      ensures Balanced(es[i].text)
    {
      assert es[i] in es;
      var k :| 0 <= k < |members| && Prints(members[k], es[i]);
      CanonicalBalanced(members[k].value);
    }
    EntriesBalanced(es);
  }

  lemma EntryBalanced(e: Entry)
    requires Balanced(e.text)
    ensures Balanced(EntryText(e))
  {
    QuotedBalanced(e.key);
    PlainBalanced([COLON]);
    BalancedConcat(Quoted(e.key), [COLON]);
    BalancedConcat(Quoted(e.key) + [COLON], e.text);
  }

  lemma {:induction false} EntriesBalanced(es: seq<Entry>)
    requires forall i :: 0 <= i < |es| ==> Balanced(es[i].text)
    ensures Balanced(EntriesText(es))
  {
    PlainBalanced([CLOSE_OBJECT]);
    PlainBalanced([COMMA]);
    if es != [] {
      EntryBalanced(es[0]);
      BalancedConcat(EntryText(es[0]), [CLOSE_OBJECT]);
      BalancedConcat(EntryText(es[0]), [COMMA]);
      EntriesBalanced(es[1..]);
      BalancedConcat(EntryText(es[0]) + [COMMA], EntriesText(es[1..]));
    }
  }

  lemma BodyBalanced(body: Option<Json>)
    requires ValidBody(body)
    ensures Balanced(BodyText(body))
  {
    if body.Some? { CanonicalBalanced(body.value); }
  }

  // ----- The four parts -----------------------------------------------------------------------

  /** Two readings of a text up to its first '|' agree. */
  lemma FirstPipe(a: JsString, b: JsString, r: JsString, s: JsString)
    requires PIPE !in a && PIPE !in b && a + ([PIPE] + r) == b + ([PIPE] + s)
    ensures a == b && r == s
  {
    var t := a + ([PIPE] + r);
    assert t[|a|] == PIPE && t[|b|] == PIPE;
    assert forall i :: 0 <= i < |a| ==> t[i] == a[i];
    assert forall i :: 0 <= i < |b| ==> t[i] == b[i];
    assert t[..|a|] == a && t[..|b|] == b;
    assert t[|a| + 1..] == r && t[|b| + 1..] == s;
  }

  /** Two readings of a text from its last '|' on agree. */
  lemma LastPipe(a: JsString, b: JsString, r: JsString, s: JsString)
    requires PIPE !in r && PIPE !in s && a + ([PIPE] + r) == b + ([PIPE] + s)
    ensures a == b && r == s
  {
    var t := a + ([PIPE] + r);
    assert t[|a|] == PIPE && t[|b|] == PIPE;
    assert forall i :: |a| < i < |t| ==> t[i] == r[i - |a| - 1];
    assert forall i :: |b| < i < |t| ==> t[i] == s[i - |b| - 1];
    assert t[..|a|] == a && t[..|b|] == b;
    assert t[|a| + 1..] == r && t[|b| + 1..] == s;
  }

  /** No balanced text ends in '|' and a balanced text, whatever comes before. */
  lemma NoLaterBody(x: JsString, t: JsString)
    requires Balanced(t)
    ensures !Balanced(x + ([PIPE] + t))
  {
    var q := Scan(Outside, x);
    ScanConcat(Outside, x, [PIPE] + t);
    ScanConcat(q, [PIPE], t);
    OneUnit(q, PIPE);
    BrokenStays(t);
  }

  /** So the head cannot be read shorter than it is ... */
  lemma NotShorter(h: JsString, t: JsString, h': JsString, t': JsString)
    requires Balanced(t) && Balanced(t') && h + ([PIPE] + t) == h' + ([PIPE] + t')
    ensures |h| >= |h'|
  {
    if |h| < |h'| {
      var whole, x := h + ([PIPE] + t), h'[|h| + 1..];
      assert whole[|h| + 1..] == t;
      assert whole[|h| + 1..] == x + ([PIPE] + t');
      NoLaterBody(x, t');
      assert false;
    }
  }

  /** ... and head and body text are determined. */
  lemma HeadUnique(h: JsString, t: JsString, h': JsString, t': JsString)
    requires Balanced(t) && Balanced(t') && h + ([PIPE] + t) == h' + ([PIPE] + t')
    ensures h == h' && t == t'
  {
    NotShorter(h, t, h', t');
    NotShorter(h', t', h, t);
    var whole := h + ([PIPE] + t);
    assert whole[..|h|] == h && whole[..|h'|] == h';
    assert whole[|h| + 1..] == t && whole[|h'| + 1..] == t';
  }

  lemma BodyTextDecides(body: Option<Json>, body': Option<Json>)
    requires ValidBody(body) && ValidBody(body')
    ensures BodyText(body) == BodyText(body') <==> SameBody(body, body')
  {
    if body.Some? { FirstUnit(body.value); }
    if body'.Some? { FirstUnit(body'.value); }
    if body.Some? && body'.Some? { CanonicalDecidesEquivalence(body.value, body'.value); }
  }

  /** For any two requests at all: the texts are equal exactly if the heads are equal and the bodies are
      equal up to sensitive members and member order. */
  lemma PreimageDecidesHead(
    verb: JsString, path: JsString, company: JsString, body: Option<Json>,
    verb': JsString, path': JsString, company': JsString, body': Option<Json>)
    requires ValidBody(body) && ValidBody(body')
    ensures Preimage(verb, path, company, body) == Preimage(verb', path', company', body')
            <==> Head(verb, path, company) == Head(verb', path', company') && SameBody(body, body')
  {
    BodyTextDecides(body, body');
    BodyBalanced(body);
    BodyBalanced(body');
    if Preimage(verb, path, company, body) == Preimage(verb', path', company', body') {
      HeadUnique(Head(verb, path, company), BodyText(body), Head(verb', path', company'), BodyText(body'));
    }
  }

  lemma HeadDecides(verb: JsString, path: JsString, company: JsString, verb': JsString, path': JsString,
                    company': JsString)
    requires PIPE !in verb && PIPE !in verb' && PIPE !in company && PIPE !in company'
    ensures Head(verb, path, company) == Head(verb', path', company')
            <==> verb == verb' && path == path' && company == company'
  {
    if Head(verb, path, company) == Head(verb', path', company') {
      FirstPipe(verb, verb', path + ([PIPE] + company), path' + ([PIPE] + company'));
      LastPipe(path, path', company, company');
    }
  }

  /** Where methods and companies hold no '|': texts are equal exactly if method, path and company are equal
      and the bodies are equal up to sensitive members and member order. */
  lemma PreimageDecidesRequest(
    verb: JsString, path: JsString, company: JsString, body: Option<Json>,
    verb': JsString, path': JsString, company': JsString, body': Option<Json>)
    requires ValidBody(body) && ValidBody(body')
    requires PIPE !in verb && PIPE !in verb' && PIPE !in company && PIPE !in company'
    ensures Preimage(verb, path, company, body) == Preimage(verb', path', company', body')
            <==> verb == verb' && path == path' && company == company' && SameBody(body, body')
  {
    PreimageDecidesHead(verb, path, company, body, verb', path', company', body');
    HeadDecides(verb, path, company, verb', path', company');
  }

  // ----- The condition is exact ---------------------------------------------------------------

  /** A company can trade everything up to any '|' in it with the path. */
  lemma CompanyWithPipeCollides(verb: JsString, path: JsString, company: JsString, body: Option<Json>, i: nat)
    requires ValidBody(body) && i < |company| && company[i] == PIPE
    ensures Preimage(verb, path, company, body)
            == Preimage(verb, path + ([PIPE] + company[..i]), company[i + 1..], body)
  {
    var rest := company[i + 1..];
    assert company == company[..i] + ([PIPE] + rest);
    assert path + ([PIPE] + (company[..i] + ([PIPE] + rest))) == (path + ([PIPE] + company[..i])) + ([PIPE] + rest);
  }

  /** ... and so can a method. */
  lemma MethodWithPipeCollides(verb: JsString, path: JsString, company: JsString, body: Option<Json>, i: nat)
    requires ValidBody(body) && i < |verb| && verb[i] == PIPE
    ensures Preimage(verb, path, company, body)
            == Preimage(verb[..i], verb[i + 1..] + ([PIPE] + path), company, body)
  {
    var first, rest, tail := verb[..i], verb[i + 1..], path + ([PIPE] + company);
    assert verb == first + ([PIPE] + rest);
    assert (first + ([PIPE] + rest)) + ([PIPE] + tail) == first + ([PIPE] + (rest + ([PIPE] + tail)));
    assert rest + ([PIPE] + tail) == (rest + ([PIPE] + path)) + ([PIPE] + company);
  }

  lemma {:induction false} FirstIndex(s: JsString) returns (i: nat)
    requires PIPE in s
    ensures i < |s| && s[i] == PIPE && PIPE !in s[..i]
  {
    if s[0] == PIPE {
      i := 0;
    } else {
      i := FirstIndex(s[1..]);
      i := i + 1;
      assert s[..i] == [s[0]] + s[1..][..i - 1];
    }
  }

  lemma {:induction false} LastIndex(s: JsString) returns (i: nat)
    requires PIPE in s
    ensures i < |s| && s[i] == PIPE && PIPE !in s[i + 1..]
  {
    if PIPE in s[1..] {
      i := LastIndex(s[1..]);
      assert s[i + 2..] == s[1..][i + 1..];
      i := i + 1;
    } else {
      i := 0;
    }
  }

  /** Equal texts are a sign of equal methods, paths and companies, whenever the other request's method and
      company hold no '|'. */
  ghost predicate Identified(verb: JsString, company: JsString) {
    forall path, body, verb', path', company', body' ::
      ValidBody(body) && ValidBody(body') && PIPE !in verb' && PIPE !in company'
      && Preimage(verb, path, company, body) == Preimage(verb', path', company', body') ==>
        verb == verb' && path == path' && company == company'
  }

  /** The text identifies the requests of a method and a company if and only if neither holds a '|'. */
  lemma IdentifiedIffNoPipe(verb: JsString, company: JsString)
    ensures Identified(verb, company) <==> PIPE !in verb && PIPE !in company
  {
    if PIPE !in verb && PIPE !in company {
      forall path, body, verb', path', company', body' |
        ValidBody(body) && ValidBody(body') && PIPE !in verb' && PIPE !in company'
        && Preimage(verb, path, company, body) == Preimage(verb', path', company', body')
        ensures verb == verb' && path == path' && company == company'
      {
        PreimageDecidesRequest(verb, path, company, body, verb', path', company', body');
      }
    } else {
      Impostor(verb, company);
    }
  }

  /** Any '|' in method or company lets some request without one have the same text. */
  lemma Impostor(verb: JsString, company: JsString)
    requires PIPE in verb || PIPE in company
    ensures !Identified(verb, company)
  {
    var verb', path', company' := verb, [], company;
    if PIPE in company {
      var j := LastIndex(company);
      CompanyWithPipeCollides(verb, [], company, None, j);
      path', company' := [] + ([PIPE] + company[..j]), company[j + 1..];
    }
    if PIPE in verb {
      var i := FirstIndex(verb);
      MethodWithPipeCollides(verb, path', company', None, i);
      verb', path' := verb[..i], verb[i + 1..] + ([PIPE] + path');
    }
    assert Preimage(verb, [], company, None) == Preimage(verb', path', company', None);
    assert |verb'| < |verb| || |company'| < |company|;
  }

  // ----- From the request line ----------------------------------------------------------------

  /** The hashed text of a request as it comes in: path normalized, company without surrounding blanks. */
  function RawPreimage(
    parse: RequestPath.Parser, encode: RequestPath.Encoder,
    verb: JsString, rawPath: JsString, rawCompany: JsString, body: Option<Json>): JsString
    requires ValidBody(body)
  {
    Preimage(verb, RequestPath.TargetText(encode, RequestPath.TargetOf(parse, rawPath)), Trim(rawCompany), body)
  }

  /** Two requests are told apart exactly by method, pathname up to slashes, query parameters up to order,
      company up to surrounding blanks, and body up to sensitive members and member order. */
  lemma PreimageDecidesRawRequest(
    parse: RequestPath.Parser, encode: RequestPath.Encoder,
    verb: JsString, raw: JsString, company: JsString, body: Option<Json>,
    verb': JsString, raw': JsString, company': JsString, body': Option<Json>)
    requires RequestPath.GoodParser(parse) && RequestPath.GoodEncoding(encode) && ValidBody(body) && ValidBody(body')
    requires PIPE !in verb && PIPE !in verb' && PIPE !in Trim(company) && PIPE !in Trim(company')
    ensures var t, t' := RequestPath.TargetOf(parse, raw), RequestPath.TargetOf(parse, raw');
            RawPreimage(parse, encode, verb, raw, company, body)
            == RawPreimage(parse, encode, verb', raw', company', body')
            <==> && verb == verb' && t.pathname == t'.pathname && multiset(t.params) == multiset(t'.params)
                 && Trim(company) == Trim(company') && SameBody(body, body')
  {
    var t, t' := RequestPath.TargetOf(parse, raw), RequestPath.TargetOf(parse, raw');
    RequestPath.NormalPathDecides(parse, encode, raw, raw');
    PreimageDecidesRequest(verb, RequestPath.TargetText(encode, t), Trim(company), body,
                           verb', RequestPath.TargetText(encode, t'), Trim(company'), body');
  }
}
