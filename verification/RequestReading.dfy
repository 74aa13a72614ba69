/** Which requests count as the same: what a path and a company must look like, in so many words, for two requests
    to be hashed alike. */
module RequestReading {
  import opened Common
  import opened JsStrings
  import opened CanonicalJson
  import opened CanonicalTheorems
  import opened RequestPath
  import opened SensitiveKeys
  import Fingerprint

  // ----- Segments of a pathname ---------------------------------------------------------------

  function NonEmpty(parts: seq<JsString>): seq<JsString> {
    if parts == [] then [] else (if parts[0] == [] then [] else [parts[0]]) + NonEmpty(parts[1..])
  }

  /** What stands between the slashes, empty texts left out. */
  function Segments(pathname: JsString): seq<JsString> {
    NonEmpty(Split(pathname, 47))
  }

  lemma {:induction false} EmptyLast(parts: seq<JsString>)
    ensures NonEmpty(parts + [[]]) == NonEmpty(parts)
  {
    if parts == [] {
      assert parts + [[]] == [[]];
    } else {
      EmptyLast(parts[1..]);
      assert (parts + [[]])[1..] == parts[1..] + [[]];
    }
  }

  lemma SlashFirst(s: JsString)
    ensures Segments([47] + s) == Segments(s) && Split([47] + s, 47)[0] == []
  {
    assert ([47] + s)[1..] == s;
    assert Split([47] + s, 47) == [[]] + Split(s, 47);
    assert ([[]] + Split(s, 47))[1..] == Split(s, 47);
  }

  lemma {:induction false} SplitSlashLast(s: JsString)
    ensures Split(s + [47], 47) == Split(s, 47) + [[]]
  {
    if s == [] {
      assert s + [47] == [47] && [47][1..] == [];
    } else {
      SplitSlashLast(s[1..]);
      assert (s + [47])[0] == s[0] && (s + [47])[1..] == s[1..] + [47];
    }
  }

  lemma SlashLast(s: JsString)
    ensures Segments(s + [47]) == Segments(s)
  {
    SplitSlashLast(s);
    EmptyLast(Split(s, 47));
  }

  lemma UnitFirst(u: CodeUnit, s: JsString)
    requires u != 47
    ensures var parts := Split(s, 47);
            && Split([u] + s, 47)[0] == [u] + parts[0]
            && Segments([u] + s) == [[u] + parts[0]] + NonEmpty(parts[1..])
  {
    assert ([u] + s)[1..] == s;
    var parts := Split(s, 47);
    assert Split([u] + s, 47) == [[u] + parts[0]] + parts[1..];
    assert ([[u] + parts[0]] + parts[1..])[1..] == parts[1..];
  }

  lemma FirstSegment(a: seq<JsString>, b: seq<JsString>)
    requires a != [] && b != [] && a[0] == b[0] && NonEmpty(a) == NonEmpty(b)
    ensures NonEmpty(a[1..]) == NonEmpty(b[1..])
  {
    var h := if a[0] == [] then [] else [a[0]];
    assert (h + NonEmpty(a[1..]))[|h|..] == NonEmpty(a[1..]) && (h + NonEmpty(b[1..]))[|h|..] == NonEmpty(b[1..]);
  }

  lemma SameSegments(u: CodeUnit, a: JsString, b: JsString)
    requires Split(a, 47)[0] == Split(b, 47)[0] && Segments(a) == Segments(b)
    ensures Split([u] + a, 47)[0] == Split([u] + b, 47)[0] && Segments([u] + a) == Segments([u] + b)
  {
    if u == 47 {
      SlashFirst(a);
      SlashFirst(b);
    } else {
      UnitFirst(u, a);
      UnitFirst(u, b);
      FirstSegment(Split(a, 47), Split(b, 47));
    }
  }

  lemma {:induction false} MergeKeepsSplit(s: JsString)
    ensures Split(MergeSlashes(s), 47)[0] == Split(s, 47)[0]
    ensures Segments(MergeSlashes(s)) == Segments(s)
  {
    if s != [] {
      MergeKeepsSplit(s[1..]);
      assert s == [s[0]] + s[1..];
      if s[0] == 47 && |s| > 1 && s[1] == 47 {
        SlashFirst(s[1..]);
        MergedHasNoPair(s[1..]);
      } else {
        SameSegments(s[0], MergeSlashes(s[1..]), s[1..]);
      }
    }
  }

  lemma SegmentsStay(pathname: JsString)
    ensures Segments(NormalPathname(pathname)) == Segments(pathname)
  {
    var merged := MergeSlashes(pathname);
    var rooted := if merged != [] && merged[0] == 47 then merged else [47] + merged;
    MergeKeepsSplit(pathname);
    SlashFirst(merged);
    assert Segments(rooted) == Segments(pathname);
    if |rooted| > 1 && rooted[|rooted| - 1] == 47 {
      var cut := rooted[..|rooted| - 1];
      assert rooted == cut + [47];
      SlashLast(cut);
    }
  }

  /** Without double slash and slash at the end, only the first part can be empty. */
  lemma {:induction false} PartsAreFull(s: JsString)
    requires NoDoubleSlash(s) && (s == [] || s[|s| - 1] != 47)
    ensures var parts := Split(s, 47);
            && (forall i :: 1 <= i < |parts| ==> parts[i] != [])
            && (parts[0] == [] <==> s == [] || s[0] == 47)
  {
    if s != [] {
      assert |s| > 1 ==> !SlashPair(s, 0);
      forall i | 0 <= i < |s[1..]| - 1
        ensures !SlashPair(s[1..], i)
      {
        assert !SlashPair(s, i + 1);
      }
      PartsAreFull(s[1..]);
    }
  }

  lemma {:induction false} AllFull(parts: seq<JsString>)
    requires forall i :: 0 <= i < |parts| ==> parts[i] != []
    ensures NonEmpty(parts) == parts
  {
    if parts != [] {
      AllFull(parts[1..]);
      assert parts == [parts[0]] + parts[1..];
    }
  }

  lemma NormalFormJoins(s: JsString)
    requires NormalForm(s)
    ensures s == [47] + Joined(Segments(s), 47)
  {
    var tail := s[1..];
    assert s == [47] + tail;
    SlashFirst(tail);
    if tail == [] {
      assert Split(tail, 47) == [[]] && NonEmpty([[]]) == [];
    } else {
      assert !SlashPair(s, 0);
      forall i | 0 <= i < |tail| - 1
        ensures !SlashPair(tail, i)
      {
        assert !SlashPair(s, i + 1);
      }
      PartsAreFull(tail);
      AllFull(Split(tail, 47));
      SplitIsSplit(tail, 47);
    }
  }

  /** The normal pathname is a slash and the segments joined by single slashes. */
  lemma NormalPathnameIs(pathname: JsString)
    ensures NormalPathname(pathname) == [47] + Joined(Segments(pathname), 47)
  {
    PathnameIsNormal(pathname);
    NormalFormJoins(NormalPathname(pathname));
    SegmentsStay(pathname);
  }

  /** Two pathnames have one normal form if and only if they have the same segments. */
  lemma PathnamesAgreeIff(pathname: JsString, pathname': JsString)
    ensures NormalPathname(pathname) == NormalPathname(pathname') <==> Segments(pathname) == Segments(pathname')
  {
    NormalPathnameIs(pathname);
    NormalPathnameIs(pathname');
    SegmentsStay(pathname);
    SegmentsStay(pathname');
  }

  // ----- Path and query -----------------------------------------------------------------------

  /** The path as sent: blanks around it, the pathname before the first question mark and the query between the first
      and the second, if there are any. */
  ghost predicate Written(raw: JsString, pathname: JsString, query: Option<JsString>) {
    exists t ::
      && IsTrimmed(raw, t) && 63 !in pathname
      && match query
         case None => t == pathname
         case Some(q) => 63 !in q && (t == pathname + [63] + q || pathname + [63] + (q + [63]) <= t)
  }

  lemma WrittenMeans(parse: Parser, raw: JsString, pathname: JsString, query: Option<JsString>)
    requires Written(raw, pathname, query)
    ensures TargetOf(parse, raw).pathname == NormalPathname(pathname)
    ensures TargetOf(parse, raw).params == if query.None? then [] else parse(query.value)
  {
    var t :|
      && IsTrimmed(raw, t) && 63 !in pathname
      && match query
         case None => t == pathname
         case Some(q) => 63 !in q && (t == pathname + [63] + q || pathname + [63] + (q + [63]) <= t);
    TrimIff(raw, t);
    match query {
      case None => SplitNone(t, 63);
      case Some(q) =>
        if t == pathname + [63] + q {
          SplitAt(pathname, 63, q);
          SplitNone(q, 63);
        } else {
          var more := t[|pathname| + |q| + 2..];
          assert t == pathname + [63] + (q + [63] + more);
          SplitAt(pathname, 63, q + [63] + more);
          SplitAt(q, 63, more);
        }
    }
  }

  function Params(parse: Parser, query: Option<JsString>): seq<Param> {
    if query.None? then [] else parse(query.value)
  }

  /** Two requests are hashed alike if and only if they have the same method, the same pathname up to repeated and
      closing slashes, the same query parameters in whatever order, the same company up to blanks around it, and
      bodies that are equal up to sensitive members and the order of members. */
  lemma RequestsAgreeIff(
    parse: Parser, encode: Encoder,
    verb: JsString, raw: JsString, rawCompany: JsString, body: Option<Json>,
    verb': JsString, raw': JsString, rawCompany': JsString, body': Option<Json>,
    pathname: JsString, query: Option<JsString>, company: JsString,
    pathname': JsString, query': Option<JsString>, company': JsString)
    requires GoodParser(parse) && GoodEncoding(encode) && Fingerprint.ValidBody(body) && Fingerprint.ValidBody(body')
    requires Written(raw, pathname, query) && IsTrimmed(rawCompany, company) && 124 !in verb && 124 !in company
    requires Written(raw', pathname', query') && IsTrimmed(rawCompany', company') && 124 !in verb' && 124 !in company'
    ensures Fingerprint.RawPreimage(parse, encode, verb, raw, rawCompany, body)
            == Fingerprint.RawPreimage(parse, encode, verb', raw', rawCompany', body')
            <==> && verb == verb' && Segments(pathname) == Segments(pathname') && company == company'
                 && multiset(Params(parse, query)) == multiset(Params(parse, query'))
                 && Fingerprint.SameBody(body, body')
  {
    TrimIff(rawCompany, company);
    TrimIff(rawCompany', company');
    WrittenMeans(parse, raw, pathname, query);
    WrittenMeans(parse, raw', pathname', query');
    PathnamesAgreeIff(pathname, pathname');
    Fingerprint.PreimageDecidesRawRequest(parse, encode, verb, raw, rawCompany, body,
                                          verb', raw', rawCompany', body');
  }

  /** The hashed text: method, path, company and body with bars between them. */
  lemma PreimageReads(verb: JsString, path: JsString, company: JsString, body: Option<Json>)
    requires Fingerprint.ValidBody(body)
    ensures Fingerprint.Preimage(verb, path, company, body) ==
            verb + [124] + path + [124] + company + [124] + if body.None? then [] else Canonical(body.value)
  {
    var bar: JsString := [124];
    Associates(path, bar, company);
    Associates(bar, path + bar, company);
    Associates(bar, path, bar);
    Associates(verb, bar + path + bar, company);
    Associates(verb, bar + path, bar);
    Associates(verb, bar, path);
    Associates(Fingerprint.Head(verb, path, company), bar, if body.None? then [] else Canonical(body.value));
  }

  /** Bodies that differ in the value of a member that is not sensitive are never hashed alike. */
  lemma VisibleMembersTellApart(
    verb: JsString, path: JsString, company: JsString, xs: seq<Member>,
    verb': JsString, path': JsString, company': JsString, ys: seq<Member>, i: nat, j: nat)
    requires Valid(Obj(xs)) && Valid(Obj(ys)) && i < |xs| && j < |ys|
    requires xs[i].key == ys[j].key && !IsSensitiveKey(xs[i].key) && !Equivalent(xs[i].value, ys[j].value)
    ensures Fingerprint.Preimage(verb, path, company, Some(Obj(xs)))
            != Fingerprint.Preimage(verb', path', company', Some(Obj(ys)))
  {
    VisibleMembersShow(xs, ys, i, j);
    CanonicalDecidesEquivalence(Obj(xs), Obj(ys));
    Fingerprint.PreimageDecidesHead(verb, path, company, Some(Obj(xs)), verb', path', company', Some(Obj(ys)));
  }

  /** So two invoices of different quantities never share a fingerprint text. */
  lemma QuantitiesTellApart(
    verb: JsString, path: JsString, company: JsString, xs: seq<Member>,
    verb': JsString, path': JsString, company': JsString, ys: seq<Member>, i: nat, j: nat, m: Number, n: Number)
    requires Valid(Obj(xs)) && Valid(Obj(ys)) && i < |xs| && j < |ys|
    requires xs[i] == Member(Text("quantity"), Num(m)) && ys[j] == Member(Text("quantity"), Num(n))
    requires m != n && !(m.Zero? && n.Zero?)
    ensures Fingerprint.Preimage(verb, path, company, Some(Obj(xs)))
            != Fingerprint.Preimage(verb', path', company', Some(Obj(ys)))
  {
    QuantityCounts();
    VisibleMembersTellApart(verb, path, company, xs, verb', path', company', ys, i, j);
  }
}
