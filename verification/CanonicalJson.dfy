/** JSON values as parsed from a request body, and the canonical text that the fingerprint hashes:
    sensitive members dropped at every depth, members in key order, strings as in section 7 of
    RFC 8259, numbers as JavaScript prints them. */
module CanonicalJson {
  import opened JsStrings

  // ----- Numbers ------------------------------------------------------------------------------

  /** A finite double: a signed zero, or the shortest decimal 0.d1 d2 ... dk * 10^point that reads
      back as the double, with no superfluous zero digit at either end. */
  datatype Number = Zero(negative: bool) | Finite(negative: bool, digits: JsString, point: int)

  predicate ValidNumber(x: Number) {
    x.Finite? ==>
      x.digits != [] && AllDigits(x.digits) && x.digits[0] != ZERO && x.digits[|x.digits| - 1] != ZERO
  }

  predicate SameNumber(x: Number, y: Number) {
    x == y || (x.Zero? && y.Zero?)
  }

  function Zeros(n: nat): JsString {
    seq(n, _ => ZERO)
  }

  const MINUS: CodeUnit := 45
  const PLUS: CodeUnit := 43
  const POINT: CodeUnit := 46
  const EXPONENT: CodeUnit := 101

  /** The exponent e with its sign. */
  function ExponentText(e: int): JsString {
    if e < 0 then [MINUS] + Decimal(-e) else [PLUS] + Decimal(e)
  }

  function Mantissa(d: JsString): JsString
    requires d != []
  {
    if |d| == 1 then d else d[..1] + [POINT] + d[1..]
  }

  function ScientificText(d: JsString, n: int): JsString
    requires d != []
  {
    Mantissa(d) + [EXPONENT] + ExponentText(n - 1)
  }

  function UnsignedText(d: JsString, n: int): JsString
    requires d != []
  {
    if |d| <= n <= 21 then d + Zeros(n - |d|)
    else if 0 < n <= 21 then d[..n] + [POINT] + d[n..]
    else if -6 < n <= 0 then [ZERO, POINT] + Zeros(-n) + d
    else ScientificText(d, n)
  }

  /** `value.toString()` for finite numbers, with -0 printed as 0. */
  function NumberText(x: Number): JsString
    requires ValidNumber(x)
  {
    match x
    case Zero(_) => [ZERO]
    case Finite(negative, d, n) => (if negative then [MINUS] else []) + UnsignedText(d, n)
  }

  // ----- Strings ------------------------------------------------------------------------------

  const QUOTE: CodeUnit := 34
  const BACKSLASH: CodeUnit := 92
  const LETTER_U: CodeUnit := 117

  function HexDigit(n: int): CodeUnit
    requires 0 <= n < 16
  {
    if n < 10 then 48 + n else 87 + n
  }

  function EscapeUnit(u: CodeUnit): JsString {
    if u == 8 then [BACKSLASH, 98]
    else if u == 9 then [BACKSLASH, 116]
    else if u == 10 then [BACKSLASH, 110]
    else if u == 12 then [BACKSLASH, 102]
    else if u == 13 then [BACKSLASH, 114]
    else if u == QUOTE || u == BACKSLASH then [BACKSLASH, u]
    else if u < 32 || IsLead(u) || IsTrail(u) then
      [BACKSLASH, LETTER_U, HexDigit(u / 4096), HexDigit(u / 256 % 16), HexDigit(u / 16 % 16), HexDigit(u % 16)]
    else [u]
  }

  /** The body of `JSON.stringify(s)`: a surrogate pair is kept, a lone surrogate is escaped. */
  function Escape(s: JsString): JsString {
    if s == [] then []
    else if IsLead(s[0]) && |s| > 1 && IsTrail(s[1]) then s[..2] + Escape(s[2..])
    else EscapeUnit(s[0]) + Escape(s[1..])
  }

  function Quoted(s: JsString): JsString {
    [QUOTE] + Escape(s) + [QUOTE]
  }

  // ----- Values -------------------------------------------------------------------------------

  datatype Json =
    | Null
    | Bool(b: bool)
    | Num(n: Number)
    | Str(s: JsString)
    | Arr(items: seq<Json>)
    | Obj(members: seq<Member>)

  datatype Member = Member(key: JsString, value: Json)

  /** Finite numbers, and no key twice in one object. */
  predicate Valid(v: Json) {
    match v
    case Num(n) => ValidNumber(n)
    case Arr(items) => AllValid(items)
    case Obj(members) => MembersValid(members) && KeysDistinct(members)
    case _ => true
  }

  predicate AllValid(items: seq<Json>) {
    forall i :: 0 <= i < |items| ==> Valid(items[i])
  }

  predicate MembersValid(members: seq<Member>) {
    forall i :: 0 <= i < |members| ==> Valid(members[i].value)
  }

  predicate KeysDistinct(members: seq<Member>) {
    forall i, j :: 0 <= i < j < |members| ==> members[i].key != members[j].key
  }

  // ----- Sensitive keys -----------------------------------------------------------------------

  const SENSITIVE_NAMES: seq<string> :=
    ["authorization", "password", "token", "secret", "apikey", "api_key", "certificado", "certificados",
     "certificate", "certificates", "accesstoken", "access_token", "refreshtoken", "refresh_token",
     "clientsecret", "client_secret", "encryptedpassword", "encrypted_password", "passwordiv", "password_iv",
     "passwordauthtag", "password_auth_tag", "solpassword", "sol_password"]

  const SENSITIVE_PATTERNS: seq<string> :=
    ["authorization", "password", "token", "secret", "apikey", "api_key", "certificado", "certificate"]

  function AsciiLower(u: CodeUnit): CodeUnit {
    if 65 <= u <= 90 then u + 32 else u
  }

  /** `toLowerCase` as far as ASCII results go: besides A to Z, only the Kelvin sign becomes one. */
  function Lower(s: JsString): JsString {
    seq(|s|, i requires 0 <= i < |s| => if s[i] == 0x212A then 107 else AsciiLower(s[i]))
  }

  /** Without hyphens and underscores. */
  function Stripped(s: JsString): JsString {
    if s == [] then [] else (if s[0] == 45 || s[0] == 95 then [] else [s[0]]) + Stripped(s[1..])
  }

  /** A case-insensitive match of the pattern anywhere in the key. */
  predicate Matches(key: JsString, pattern: JsString) {
    exists i :: 0 <= i <= |key| - |pattern| && MatchesAt(key, pattern, i)
  }

  predicate MatchesAt(key: JsString, pattern: JsString, i: int)
    requires 0 <= i <= |key| - |pattern|
  {
    forall j :: 0 <= j < |pattern| ==> AsciiLower(key[i + j]) == pattern[j]
  }

  predicate IsSensitiveKey(key: JsString) {
    && key != []
    && (|| (exists n :: n in SENSITIVE_NAMES && (Text(n) == Lower(key) || Text(n) == Stripped(Lower(key))))
        || (exists p :: p in SENSITIVE_PATTERNS && Matches(key, Text(p))))
  }

  // ----- Canonical text -----------------------------------------------------------------------

  /** A member of an object as printed: key and canonical value. */
  datatype Entry = Entry(key: JsString, text: JsString)

  const COMMA: CodeUnit := 44
  const COLON: CodeUnit := 58
  const OPEN_ARRAY: CodeUnit := 91
  const CLOSE_ARRAY: CodeUnit := 93
  const OPEN_OBJECT: CodeUnit := 123
  const CLOSE_OBJECT: CodeUnit := 125

  function Insert(e: Entry, sorted: seq<Entry>): seq<Entry> {
    if sorted == [] || Less(e.key, sorted[0].key) then [e] + sorted
    else [sorted[0]] + Insert(e, sorted[1..])
  }

  function SortByKey(entries: seq<Entry>): seq<Entry> {
    if entries == [] then [] else Insert(entries[0], SortByKey(entries[1..]))
  }

  function EntryText(e: Entry): JsString {
    Quoted(e.key) + [COLON] + e.text
  }

  /** The entries joined by commas, closed by a brace. */
  function EntriesText(entries: seq<Entry>): JsString {
    if entries == [] then [CLOSE_OBJECT]
    else if |entries| == 1 then EntryText(entries[0]) + [CLOSE_OBJECT]
    else EntryText(entries[0]) + [COMMA] + EntriesText(entries[1..])
  }

  function Canonical(v: Json): JsString
    requires Valid(v)
  {
    match v
    case Null => Text("null")
    case Bool(b) => if b then Text("true") else Text("false")
    case Num(n) => NumberText(n)
    case Str(s) => Quoted(s)
    case Arr(items) => [OPEN_ARRAY] + ItemsText(items)
    case Obj(members) => [OPEN_OBJECT] + EntriesText(SortByKey(Entries(members)))
  }

  /** The items joined by commas, closed by a bracket. */
  function ItemsText(items: seq<Json>): JsString
    requires AllValid(items)
  {
    if items == [] then [CLOSE_ARRAY]
    else if |items| == 1 then Canonical(items[0]) + [CLOSE_ARRAY]
    else Canonical(items[0]) + [COMMA] + ItemsText(items[1..])
  }

  /** The members that are printed, each with its canonical value. */
  function Entries(members: seq<Member>): seq<Entry>
    requires MembersValid(members)
  {
    if members == [] then []
    else
      (if IsSensitiveKey(members[0].key) then [] else [Entry(members[0].key, Canonical(members[0].value))])
      + Entries(members[1..])
  }

  // ----- Meaning ------------------------------------------------------------------------------

  /** Equal up to sensitive members and the order of members, at every depth. */
  predicate Equivalent(a: Json, b: Json) {
    match (a, b)
    case (Null, Null) => true
    case (Bool(x), Bool(y)) => x == y
    case (Num(x), Num(y)) => SameNumber(x, y)
    case (Str(x), Str(y)) => x == y
    case (Arr(xs), Arr(ys)) => |xs| == |ys| && forall i :: 0 <= i < |xs| ==> Equivalent(xs[i], ys[i])
    case (Obj(xs), Obj(ys)) => Covered(xs, ys) && CoveredBack(xs, ys)
    case _ => false
  }

  /** Every visible member of xs has an equivalent member of ys under the same key. */
  predicate Covered(xs: seq<Member>, ys: seq<Member>) {
    forall i :: 0 <= i < |xs| && !IsSensitiveKey(xs[i].key) ==>
      exists j :: 0 <= j < |ys| && ys[j].key == xs[i].key && Equivalent(xs[i].value, ys[j].value)
  }

  predicate CoveredBack(xs: seq<Member>, ys: seq<Member>) {
    forall j :: 0 <= j < |ys| && !IsSensitiveKey(ys[j].key) ==>
      exists i :: 0 <= i < |xs| && xs[i].key == ys[j].key && Equivalent(xs[i].value, ys[j].value)
  }
}
