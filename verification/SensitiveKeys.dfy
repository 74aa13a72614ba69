/** Which members of a request body do not count for its fingerprint, in literal names, and that all others do. */
module SensitiveKeys {
  import opened Common
  import opened JsStrings
  import opened CanonicalJson
  import opened CanonicalTheorems

  // ----- What makes a key sensitive -----------------------------------------------------------

  predicate StandsAt(t: JsString, s: JsString, i: int)
    requires 0 <= i <= |s| - |t|
  {
    s[i..i + |t|] == t
  }

  predicate Contains(s: JsString, t: JsString) {
    exists i :: 0 <= i <= |s| - |t| && StandsAt(t, s, i)
  }

  /** A to Z in lower case. */
  function LowerCase(s: JsString): JsString {
    seq(|s|, i requires 0 <= i < |s| => if 65 <= s[i] <= 90 then s[i] + 32 else s[i])
  }

  /** ... and the Kelvin sign as k. */
  function LowerCaseKelvin(s: JsString): JsString {
    seq(|s|, i requires 0 <= i < |s| => if s[i] == 0x212A then 107 else if 65 <= s[i] <= 90 then s[i] + 32 else s[i])
  }

  /** Hyphens and underscores left out. */
  function WithoutMarks(s: JsString): JsString {
    if s == [] then []
    else WithoutMarks(s[..|s| - 1]) + if s[|s| - 1] == 45 || s[|s| - 1] == 95 then [] else [s[|s| - 1]]
  }

  predicate IsSecretWord(word: string) {
    word in {"authorization", "password", "token", "secret", "apikey", "api_key", "certificado", "certificate"}
  }

  predicate IsSecretName(name: string) {
    name in {"authorization", "password", "token", "secret", "apikey", "api_key", "certificado", "certificados",
             "certificate", "certificates", "accesstoken", "access_token", "refreshtoken", "refresh_token",
             "clientsecret", "client_secret", "encryptedpassword", "encrypted_password", "passwordiv", "password_iv",
             "passwordauthtag", "password_auth_tag", "solpassword", "sol_password"}
  }

  ghost predicate HasSecretWord(s: JsString) {
    exists word :: IsSecretWord(word) && Contains(s, Text(word))
  }

  ghost predicate SpellsSecretName(s: JsString) {
    exists name :: IsSecretName(name) && Text(name) == s
  }

  lemma MatchesAtMeans(key: JsString, pattern: JsString, i: int)
    requires 0 <= i <= |key| - |pattern|
    ensures MatchesAt(key, pattern, i) <==> StandsAt(pattern, LowerCase(key), i)
  {
    var part := LowerCase(key)[i..i + |pattern|];
    forall j | 0 <= j < |pattern|
      ensures part[j] == AsciiLower(key[i + j])
    {
    }
    if MatchesAt(key, pattern, i) { assert part == pattern; }
    if StandsAt(pattern, LowerCase(key), i) {
      forall j | 0 <= j < |pattern|
        ensures AsciiLower(key[i + j]) == pattern[j]
      {
        assert part[j] == pattern[j];
      }
    }
  }

  lemma MatchesMeans(key: JsString, pattern: JsString)
    ensures Matches(key, pattern) <==> Contains(LowerCase(key), pattern)
  {
    forall i | 0 <= i <= |key| - |pattern|
      ensures MatchesAt(key, pattern, i) <==> StandsAt(pattern, LowerCase(key), i)
    {
      MatchesAtMeans(key, pattern, i);
    }
  }

  lemma LowerMeans(s: JsString)
    ensures Lower(s) == LowerCaseKelvin(s)
  {
  }

  lemma Associates(a: JsString, b: JsString, c: JsString)
    ensures a + (b + c) == a + b + c
  {
  }

  /** The unit itself, unless it is a hyphen or an underscore. */
  function Kept(u: CodeUnit): JsString {
    if u == 45 || u == 95 then [] else [u]
  }

  lemma {:induction false} StrippedEnds(s: JsString, u: CodeUnit)
    ensures Stripped(s + [u]) == Stripped(s) + Kept(u)
  {
    var t := s + [u];
    if s == [] {
      assert t == [u] && t[1..] == [];
      assert Stripped(t) == Kept(u) + Stripped([]);
    } else {
      StrippedEnds(s[1..], u);
      assert t[0] == s[0] && t[1..] == s[1..] + [u];
      assert Stripped(t) == Kept(s[0]) + (Stripped(s[1..]) + Kept(u));
      assert Stripped(s) == Kept(s[0]) + Stripped(s[1..]);
      Associates(Kept(s[0]), Stripped(s[1..]), Kept(u));
    }
  }

  lemma {:induction false} StrippedMeans(s: JsString)
    ensures Stripped(s) == WithoutMarks(s)
  {
    if s != [] {
      var n := |s| - 1;
      StrippedMeans(s[..n]);
      StrippedEnds(s[..n], s[n]);
      assert s == s[..n] + [s[n]];
    }
  }

  lemma WordsMean(word: string)
    ensures word in SENSITIVE_PATTERNS <==> IsSecretWord(word)
  {
  }

  lemma NamesMean(name: string)
    ensures name in SENSITIVE_NAMES <==> IsSecretName(name)
  {
  }

  lemma PatternsMean(key: JsString)
    ensures (exists p :: p in SENSITIVE_PATTERNS && Matches(key, Text(p))) <==> HasSecretWord(LowerCase(key))
  {
    forall word: string
      ensures word in SENSITIVE_PATTERNS && Matches(key, Text(word))
              <==> IsSecretWord(word) && Contains(LowerCase(key), Text(word))
    {
      WordsMean(word);
      MatchesMeans(key, Text(word));
    }
  }

  lemma SpellingsMean(s: JsString)
    ensures (exists n :: n in SENSITIVE_NAMES && Text(n) == s) <==> SpellsSecretName(s)
  {
    forall name: string
      ensures name in SENSITIVE_NAMES <==> IsSecretName(name)
    {
      NamesMean(name);
    }
  }

  lemma EmptyIsHarmless()
    ensures !HasSecretWord(LowerCase([])) && !SpellsSecretName(LowerCaseKelvin([]))
    ensures !SpellsSecretName(WithoutMarks(LowerCaseKelvin([])))
  {
    assert LowerCase([]) == [] && LowerCaseKelvin([]) == [];
  }

  /** A key is sensitive if and only if it contains one of eight words, whatever the case of its letters, or spells one
      of the listed names, with or without hyphens and underscores. */
  lemma SensitiveIff(key: JsString)
    ensures IsSensitiveKey(key) <==>
              || HasSecretWord(LowerCase(key))
              || SpellsSecretName(LowerCaseKelvin(key)) || SpellsSecretName(WithoutMarks(LowerCaseKelvin(key)))
  {
    PatternsMean(key);
    SpellingsMean(Lower(key));
    SpellingsMean(Stripped(Lower(key)));
    LowerMeans(key);
    StrippedMeans(Lower(key));
    if key == [] { EmptyIsHarmless(); }
  }

  // ----- Keys that are, and keys that are not -------------------------------------------------

  lemma ContainsMiddle(a: JsString, t: JsString, b: JsString)
    ensures Contains(a + t + b, t)
  {
    var s := a + t + b;
    assert s[|a|..|a| + |t|] == t;
    assert StandsAt(t, s, |a|);
  }

  lemma LowerJoins(a: JsString, b: JsString)
    ensures LowerCase(a + b) == LowerCase(a) + LowerCase(b)
  {
  }

  /** Any key that contains one of the words, in whatever case, is sensitive. */
  lemma SecretKey(a: JsString, w: JsString, b: JsString, word: string)
    requires IsSecretWord(word) && LowerCase(w) == Text(word)
    ensures IsSensitiveKey(a + w + b)
  {
    ContainsMiddle(LowerCase(a), Text(word), LowerCase(b));
    LowerJoins(a, w);
    LowerJoins(a + w, b);
    SensitiveIff(a + w + b);
  }

  lemma PasswordKey()
    ensures IsSensitiveKey(Text("password"))
  {
    SecretKey([], Text("password"), [], "password");
    assert [] + Text("password") + [] == Text("password");
  }

  lemma WordRead(w: JsString, word: string)
    requires |w| == |word| && forall j :: 0 <= j < |word| ==> AsciiLower(w[j]) == Unit(word[j])
    ensures LowerCase(w) == Text(word)
  {
    forall j | 0 <= j < |w|
      ensures LowerCase(w)[j] == Text(word)[j]
    {
      assert AsciiLower(w[j]) == Unit(word[j]);
    }
  }

  lemma CutAround(s: JsString, i: nat, j: nat)
    requires i <= j <= |s|
    ensures s == s[..i] + s[i..j] + s[j..]
  {
  }

  /** The word read at a place of the key. */
  lemma SecretAt(key: JsString, i: nat, word: string)
    requires IsSecretWord(word) && i + |word| <= |key|
    requires forall j :: 0 <= j < |word| ==> AsciiLower(key[i..i + |word|][j]) == Unit(word[j])
    ensures IsSensitiveKey(key)
  {
    var k := i + |word|;
    WordRead(key[i..k], word);
    CutAround(key, i, k);
    SecretKey(key[..i], key[i..k], key[k..], word);
  }

  lemma TokenKey()
    ensures IsSensitiveKey(Text("bootstrapToken"))
  {
    var key := Text("bootstrapToken");
    assert key[9] == 84 && key[10] == 111 && key[11] == 107 && key[12] == 101 && key[13] == 110;
    SecretAt(key, 9, "token");
  }

  lemma ApiKey()
    ensures IsSensitiveKey(Text("X-Api_Key"))
  {
    var key := Text("X-Api_Key");
    assert key[2] == 65 && key[3] == 112 && key[4] == 105 && key[5] == 95;
    assert key[6] == 75 && key[7] == 101 && key[8] == 121;
    SecretAt(key, 2, "api_key");
  }

  /** Keys of credentials in some of their spellings. */
  lemma CredentialsAreSensitive()
    ensures IsSensitiveKey(Text("password")) && IsSensitiveKey(Text("bootstrapToken"))
    ensures IsSensitiveKey(Text("X-Api_Key")) && IsSensitiveKey(Text("api-key"))
  {
    PasswordKey();
    TokenKey();
    ApiKey();
    DashedKey();
  }

  lemma {:induction false} StrippedJoins(a: JsString, b: JsString)
    ensures Stripped(a + b) == Stripped(a) + Stripped(b)
    decreases |b|
  {
    if b == [] {
      assert a + b == a && Stripped(b) == [];
    } else {
      var n := |b| - 1;
      StrippedJoins(a, b[..n]);
      StrippedEnds(a + b[..n], b[n]);
      StrippedEnds(b[..n], b[n]);
      assert a + b == a + b[..n] + [b[n]] && b == b[..n] + [b[n]];
    }
  }

  lemma {:induction false} StrippedDash(a: JsString, b: JsString)
    requires 45 !in a && 95 !in a && 45 !in b && 95 !in b
    ensures Stripped(a + [45] + b) == a + b
  {
    PlainStripped(a);
    PlainStripped(b);
    StrippedJoins(a + [45], b);
    StrippedEnds(a, 45);
  }

  lemma {:induction false} PlainLower(s: JsString)
    requires forall i :: 0 <= i < |s| ==> s[i] < 65 || 90 < s[i] < 0x212A
    ensures LowerCaseKelvin(s) == s
  {
    assert |LowerCaseKelvin(s)| == |s|;
    forall i | 0 <= i < |s|
      ensures LowerCaseKelvin(s)[i] == s[i]
    {
    }
  }

  lemma DashedKey()
    ensures IsSensitiveKey(Text("api-key"))
  {
    var key := Text("api") + [45] + Text("key");
    assert key == Text("api-key");
    PlainLower(key);
    StrippedDash(Text("api"), Text("key"));
    StrippedMeans(key);
    assert WithoutMarks(key) == Text("apikey");
    assert IsSecretName("apikey");
    SensitiveIff(key);
  }

  lemma {:induction false} PlainStripped(s: JsString)
    requires 45 !in s && 95 !in s
    ensures Stripped(s) == s
  {
    if s != [] { PlainStripped(s[1..]); }
  }

  /** Three letters in a row that begin a word of the list: aut, pas, tok, sec, api or cer. */
  predicate Suspicious(a: CodeUnit, b: CodeUnit, c: CodeUnit) {
    || (a == 97 && b == 117 && c == 116) || (a == 112 && b == 97 && c == 115) || (a == 116 && b == 111 && c == 107)
    || (a == 115 && b == 101 && c == 99) || (a == 97 && b == 112 && c == 105) || (a == 99 && b == 101 && c == 114)
  }

  predicate SuspiciousAt(s: JsString, i: int)
    requires 0 <= i < |s| - 2
  {
    Suspicious(s[i], s[i + 1], s[i + 2])
  }

  predicate Unsuspicious(s: JsString) {
    forall i :: 0 <= i < |s| - 2 ==> !SuspiciousAt(s, i)
  }

  lemma WordIsSuspicious(word: string)
    requires IsSecretWord(word)
    ensures |Text(word)| >= 3 && SuspiciousAt(Text(word), 0)
  {
  }

  lemma WordsShow(s: JsString, word: string)
    requires IsSecretWord(word) && Contains(s, Text(word))
    ensures !Unsuspicious(s)
  {
    var i :| 0 <= i <= |s| - |Text(word)| && StandsAt(Text(word), s, i);
    WordIsSuspicious(word);
    var part := s[i..i + |Text(word)|];
    assert part[0] == s[i] && part[1] == s[i + 1] && part[2] == s[i + 2];
    assert SuspiciousAt(s, i);
  }

  predicate BeginsWithWord(name: string) {
    name in {"authorization", "password", "token", "secret", "apikey", "api_key", "certificado", "certificados",
             "certificate", "certificates", "passwordiv", "password_iv", "passwordauthtag", "password_auth_tag"}
  }

  lemma BeginningIsSuspicious(name: string)
    requires BeginsWithWord(name)
    ensures |Text(name)| >= 3 && SuspiciousAt(Text(name), 0)
  {
  }

  lemma RestIsSuspicious(name: string) returns (i: nat)
    requires IsSecretName(name) && !BeginsWithWord(name)
    ensures i < |Text(name)| - 2 && SuspiciousAt(Text(name), i)
  {
    i := if name in {"access_token", "refreshtoken", "client_secret"} then 7
         else if name in {"accesstoken", "clientsecret"} then 6
         else if name == "refresh_token" then 8 else if name == "encryptedpassword" then 9
         else if name == "encrypted_password" then 10 else if name == "solpassword" then 3 else 4;
  }

  /** Every name of the list contains a word of the list. */
  lemma NameIsSuspicious(name: string) returns (i: nat)
    requires IsSecretName(name)
    ensures i < |Text(name)| - 2 && SuspiciousAt(Text(name), i)
  {
    if BeginsWithWord(name) {
      BeginningIsSuspicious(name);
      i := 0;
    } else {
      i := RestIsSuspicious(name);
    }
  }

  lemma NamesShow(s: JsString)
    requires SpellsSecretName(s)
    ensures !Unsuspicious(s)
  {
    var name :| IsSecretName(name) && Text(name) == s;
    var i := NameIsSuspicious(name);
    assert SuspiciousAt(s, i);
  }

  /** A key without these letters in a row, without hyphen, underscore and Kelvin sign, is not sensitive. */
  lemma HarmlessKey(key: JsString)
    requires Unsuspicious(LowerCase(key)) && 45 !in key && 95 !in key && 0x212A !in key
    ensures !IsSensitiveKey(key)
  {
    var lower := LowerCase(key);
    assert LowerCaseKelvin(key) == lower;
    assert 45 !in lower && 95 !in lower;
    PlainStripped(lower);
    StrippedMeans(lower);
    SensitiveIff(key);
    if HasSecretWord(lower) {
      var word :| IsSecretWord(word) && Contains(lower, Text(word));
      WordsShow(lower, word);
    }
    if SpellsSecretName(lower) { NamesShow(lower); }
  }

  lemma QuantityCounts()
    ensures !IsSensitiveKey(Text("quantity"))
  {
    HarmlessKey(Text("quantity"));
  }

  lemma UnitPriceCounts()
    ensures !IsSensitiveKey(Text("unitPrice"))
  {
    HarmlessKey(Text("unitPrice"));
  }

  lemma ItemsCounts()
    ensures !IsSensitiveKey(Text("items"))
  {
    HarmlessKey(Text("items"));
  }

  lemma CustomerCounts()
    ensures !IsSensitiveKey(Text("customer"))
  {
    HarmlessKey(Text("customer"));
  }

  lemma DescriptionCounts()
    ensures !IsSensitiveKey(Text("description"))
  {
    HarmlessKey(Text("description"));
  }

  /** Keys of an invoice. */
  lemma BusinessKeysCount()
    ensures !IsSensitiveKey(Text("quantity")) && !IsSensitiveKey(Text("unitPrice"))
    ensures !IsSensitiveKey(Text("items")) && !IsSensitiveKey(Text("customer")) && !IsSensitiveKey(Text("description"))
  {
    QuantityCounts();
    UnitPriceCounts();
    ItemsCounts();
    CustomerCounts();
    DescriptionCounts();
  }

  // ----- What that means for the text ---------------------------------------------------------

  lemma CoveredMember(xs: seq<Member>, ys: seq<Member>, i: nat, j: nat)
    requires KeysDistinct(ys) && Covered(xs, ys) && i < |xs| && j < |ys|
    requires xs[i].key == ys[j].key && !IsSensitiveKey(xs[i].key)
    ensures Equivalent(xs[i].value, ys[j].value)
  {
    var k :| 0 <= k < |ys| && ys[k].key == xs[i].key && Equivalent(xs[i].value, ys[k].value);
    assert k == j;
  }

  /** Two objects that differ in the value of a member whose key is not sensitive have different texts. */
  lemma VisibleMembersShow(xs: seq<Member>, ys: seq<Member>, i: nat, j: nat)
    requires Valid(Obj(xs)) && Valid(Obj(ys)) && i < |xs| && j < |ys|
    requires xs[i].key == ys[j].key && !IsSensitiveKey(xs[i].key) && !Equivalent(xs[i].value, ys[j].value)
    ensures Canonical(Obj(xs)) != Canonical(Obj(ys))
  {
    if Covered(xs, ys) { CoveredMember(xs, ys, i, j); }
    CanonicalDecidesEquivalence(Obj(xs), Obj(ys));
  }

  /** In particular, invoices of different quantities have different texts, whatever else they say. */
  lemma QuantitiesShow(xs: seq<Member>, ys: seq<Member>, i: nat, j: nat, m: Number, n: Number)
    requires Valid(Obj(xs)) && Valid(Obj(ys)) && i < |xs| && j < |ys|
    requires xs[i] == Member(Text("quantity"), Num(m)) && ys[j] == Member(Text("quantity"), Num(n))
    requires m != n && !(m.Zero? && n.Zero?)
    ensures Canonical(Obj(xs)) != Canonical(Obj(ys))
  {
    QuantityCounts();
    VisibleMembersShow(xs, ys, i, j);
  }

  lemma HiddenFirst(xs: seq<Member>)
    requires MembersValid(xs) && xs != [] && IsSensitiveKey(xs[0].key)
    ensures MembersValid(xs[1..]) && Entries(xs) == Entries(xs[1..])
  {
    assert Entries(xs) == [] + Entries(xs[1..]);
  }

  lemma {:induction false} HiddenEntries(xs: seq<Member>, ys: seq<Member>, i: nat)
    requires MembersValid(xs) && MembersValid(ys) && i < |xs| && IsSensitiveKey(xs[i].key) 
    requires |xs| == |ys| && xs[i].key == ys[i].key && xs[..i] == ys[..i] && xs[i + 1..] == ys[i + 1..]
    ensures Entries(ys) == Entries(xs)
  {
    if i == 0 {
      HiddenFirst(xs);
      HiddenFirst(ys);
    } else {
      assert xs[0] == xs[..i][0] && ys[0] == ys[..i][0];
      assert xs[1..][..i - 1] == xs[..i][1..] && ys[1..][..i - 1] == ys[..i][1..];
      HiddenEntries(xs[1..], ys[1..], i - 1);
    }
  }

  /** The value of a sensitive member does not reach the text. */
  lemma SecretsDoNotShow(xs: seq<Member>, ys: seq<Member>, i: nat)
    requires Valid(Obj(xs)) && Valid(Obj(ys)) && i < |xs| && IsSensitiveKey(xs[i].key)
    requires |xs| == |ys| && xs[i].key == ys[i].key && xs[..i] == ys[..i] && xs[i + 1..] == ys[i + 1..]
    ensures Canonical(Obj(xs)) == Canonical(Obj(ys))
  {
    HiddenEntries(xs, ys, i);
  }

  /** In particular, a password may be changed and the request still counts as the same. */
  lemma PasswordsDoNotShow(xs: seq<Member>, ys: seq<Member>, i: nat)
    requires Valid(Obj(xs)) && Valid(Obj(ys)) && i < |xs| && xs[i].key == Text("password")
    requires |xs| == |ys| && xs[i].key == ys[i].key && xs[..i] == ys[..i] && xs[i + 1..] == ys[i + 1..]
    ensures Canonical(Obj(xs)) == Canonical(Obj(ys))
  {
    PasswordKey();
    SecretsDoNotShow(xs, ys, i);
  }
}
