/** The part of the validation library that the schemas use: JSON input values,
    issues, string checks, and the parsers for strings, booleans, enums,
    positive integers and string arrays.  Library-generated messages follow
    the library's wording ("Required", "Expected string, received number"). */
module Zod {
  import opened Base

  /** A parsed JSON value (a request body, query or params object). */
  datatype Json =
    | JNull
    | JBool(b: bool)
    | JNum(n: real)
    | JStr(s: string)
    | JArr(items: seq<Json>)
    | JObj(fields: map<string, Json>)

  datatype IssueCode = InvalidType | InvalidEnumValue | InvalidString | TooSmall | TooBig | Custom

  function CodeText(c: IssueCode): string
  {
    match c
    case InvalidType => "invalid_type"
    case InvalidEnumValue => "invalid_enum_value"
    case InvalidString => "invalid_string"
    case TooSmall => "too_small"
    case TooBig => "too_big"
    case Custom => "custom"
  }

  /** One validation failure: where, which kind, and the message. */
  datatype Issue = Issue(path: seq<string>, code: IssueCode, message: string)

  /** Several fields, each parsed separately (undefined when the key is absent). */
  function Lookup(m: map<string, Json>, key: string): Option<Json>
  {
    if key in m then Some(m[key]) else None
  }

  /** The library's name for the type of a received value. */
  function TypeName(v: Json): string
  {
    match v
    case JNull => "null"
    case JBool(_) => "boolean"
    case JNum(_) => "number"
    case JStr(_) => "string"
    case JArr(_) => "array"
    case JObj(_) => "object"
  }

  /** The invalid_type issue for a missing value or a value of the wrong type. */
  function TypeIssue(path: seq<string>, expected: string, got: Option<Json>): Issue
  {
    Issue(path, InvalidType, if got.None? then "Required" else "Expected " + expected + ", received " + TypeName(got.value))
  }

  function IssuesOf<T>(r: Result<T, seq<Issue>>): seq<Issue>
  {
    if r.Err? then r.error else []
  }

  // ---------------------------------------------------------------------
  // String checks
  // ---------------------------------------------------------------------

  /** Patterns the schemas test strings against. */
  datatype Pattern =
    | OnlyDigits     // /^\d+$/
    | HasUpper       // /[A-Z]/
    | HasLower       // /[a-z]/
    | HasDigit       // /[0-9]/
    | HasSpecial     // /[^A-Za-z0-9]/
    | EmailAddress   // .email()
    | WebUrl         // .url()
    | IsoDatetime    // .datetime()

  /** Structural e-mail shape: one '@', a non-empty local part, and a dotted
      domain whose labels are non-empty; no whitespace anywhere. */
  predicate LooksLikeEmail(s: string)
  {
    && (forall i :: 0 <= i < |s| ==> !IsWhitespace(s[i]))
    && exists at :: 0 < at < |s| - 1 && s[at] == '@' && '@' !in s[..at] && '@' !in s[at + 1..]
         && DottedDomain(s[at + 1..])
  }

  predicate DottedDomain(d: string)
  {
    '.' in d && d[0] != '.' && d[|d| - 1] != '.' && (forall i :: 0 <= i < |d| - 1 ==> !(d[i] == '.' && d[i + 1] == '.'))
  }

  /** Structural URL shape: a scheme `[A-Za-z][A-Za-z0-9+.-]*` then ':' then something. */
  predicate LooksLikeUrl(s: string)
  {
    |s| > 0 && (IsUpper(s[0]) || IsLower(s[0]))
    && (exists c :: 0 < c < |s| - 1 && s[c] == ':'
          && (forall i :: 0 < i < c ==> IsAlnum(s[i]) || s[i] == '+' || s[i] == '.' || s[i] == '-'))
  }

  /** `YYYY-MM-DDTHH:MM:SS` with an optional fraction `.d+`, then 'Z'. */
  predicate LooksLikeIsoDatetime(s: string)
  {
    && |s| >= 20
    && (forall i :: i in {0, 1, 2, 3, 5, 6, 8, 9, 11, 12, 14, 15, 17, 18} ==> IsDigit(s[i]))
    && s[4] == '-' && s[7] == '-' && s[10] == 'T' && s[13] == ':' && s[16] == ':'
    && s[|s| - 1] == 'Z'
    && (|s| == 20 || (|s| >= 22 && s[19] == '.' && AllDigits(s[20..|s| - 1])))
  }

  predicate Matches(p: Pattern, s: string)
  {
    match p
    case OnlyDigits => s != [] && AllDigits(s)
    case HasUpper => exists i :: 0 <= i < |s| && IsUpper(s[i])
    case HasLower => exists i :: 0 <= i < |s| && IsLower(s[i])
    case HasDigit => exists i :: 0 <= i < |s| && IsDigit(s[i])
    case HasSpecial => exists i :: 0 <= i < |s| && !IsAlnum(s[i])
    case EmailAddress => LooksLikeEmail(s)
    case WebUrl => LooksLikeUrl(s)
    case IsoDatetime => LooksLikeIsoDatetime(s)
  }

  /** One link of a `z.string()` chain, applied in the order written. */
  datatype Check =
    | MinLength(n: nat, message: string)
    | MaxLength(n: nat, message: string)
    | TrimSpace
    | Regex(pattern: Pattern, message: string)

  /** Whether the string at this point of the chain passes the check. */
  predicate Passes(c: Check, s: string)
  {
    match c
    case MinLength(n, _) => |s| >= n
    case MaxLength(n, _) => |s| <= n
    case TrimSpace => true
    case Regex(p, _) => Matches(p, s)
  }

  function CheckIssue(c: Check, path: seq<string>): Issue
    requires !c.TrimSpace?
  {
    match c
    case MinLength(_, m) => Issue(path, TooSmall, m)
    case MaxLength(_, m) => Issue(path, TooBig, m)
    case Regex(_, m) => Issue(path, InvalidString, m)
  }

  /** The string as transformed by the chain: every `trim` applied where it stands. */
  function Transformed(s: string, checks: seq<Check>): string
    decreases |checks|
  {
    if checks == [] then s
    else Transformed(if checks[0].TrimSpace? then Trim(s) else s, checks[1..])
  }

  /** Runs every check in order; a failing check adds its issue and the chain
      goes on, so one string can draw several issues. */
  function RunChecks(s: string, checks: seq<Check>, path: seq<string>): (issues: seq<Issue>)
    ensures issues == [] <==> AllPass(s, checks)
    ensures forall k :: 0 <= k < |issues| ==> issues[k].path == path
    decreases |checks|
  {
    if checks == [] then []
    else
      var c := checks[0];
      var here := if c.TrimSpace? || Passes(c, s) then [] else [CheckIssue(c, path)];
      here + RunChecks(if c.TrimSpace? then Trim(s) else s, checks[1..], path)
  }

  /** Every check passes on the string as it stands at that check. */
  predicate AllPass(s: string, checks: seq<Check>)
    decreases |checks|
  {
    checks == [] || (Passes(checks[0], s) && AllPass(if checks[0].TrimSpace? then Trim(s) else s, checks[1..]))
  }

  /** When no check in the chain trims, every check sees the raw string. */
  lemma {:induction false} AllPassWithoutTrim(s: string, checks: seq<Check>)
    requires forall k :: 0 <= k < |checks| ==> !checks[k].TrimSpace?
    ensures AllPass(s, checks) <==> forall k :: 0 <= k < |checks| ==> Passes(checks[k], s)
    ensures Transformed(s, checks) == s
  {
    if checks != [] {
      AllPassWithoutTrim(s, checks[1..]);
      assert forall k :: 1 <= k < |checks| ==> checks[1..][k - 1] == checks[k];
    }
  }

  /** A one-check chain without a trim accepts what that check accepts, unchanged. */
  lemma SingleCheck(s: string, c: Check)
    requires !c.TrimSpace?
    ensures AllPass(s, [c]) <==> Passes(c, s)
    ensures Transformed(s, [c]) == s
  {
    assert [c][1..] == [];
  }

  /** A first link that does not trim: its own verdict, then the rest on the same string. */
  lemma CheckStep(s: string, checks: seq<Check>)
    requires checks != [] && !checks[0].TrimSpace?
    ensures AllPass(s, checks) <==> Passes(checks[0], s) && AllPass(s, checks[1..])
    ensures Transformed(s, checks) == Transformed(s, checks[1..])
  {
  }

  /** A chain ending in `trim` hands on the trimmed string and refuses nothing. */
  lemma TrimLast(s: string)
    ensures AllPass(s, [TrimSpace])
    ensures Transformed(s, [TrimSpace]) == Trim(s)
  {
    assert [TrimSpace][1..] == [];
  }

  /** `.min(lo).max(hi).trim()`: both bounds test the raw string; the value is trimmed. */
  lemma BoundsThenTrim(s: string, lo: nat, hi: nat, m1: string, m2: string)
    ensures AllPass(s, [MinLength(lo, m1), MaxLength(hi, m2), TrimSpace]) <==> lo <= |s| <= hi
    ensures Transformed(s, [MinLength(lo, m1), MaxLength(hi, m2), TrimSpace]) == Trim(s)
  {
    var cs := [MinLength(lo, m1), MaxLength(hi, m2), TrimSpace];
    CheckStep(s, cs);
    assert cs[1..] == [MaxLength(hi, m2), TrimSpace];
    CheckStep(s, cs[1..]);
    assert cs[1..][1..] == [TrimSpace];
    TrimLast(s);
  }

  /** Three links none of which trims: each tests the raw string, which passes through. */
  lemma ThreeChecks(s: string, a: Check, b: Check, c: Check)
    requires !a.TrimSpace? && !b.TrimSpace? && !c.TrimSpace?
    ensures AllPass(s, [a, b, c]) <==> Passes(a, s) && Passes(b, s) && Passes(c, s)
    ensures Transformed(s, [a, b, c]) == s
  {
    var cs := [a, b, c];
    CheckStep(s, cs);
    assert cs[1..] == [b, c];
    CheckStep(s, cs[1..]);
    assert cs[1..][1..] == [c];
    CheckStep(s, [c]);
    assert [c][1..] == [];
  }

  // ---------------------------------------------------------------------
  // Field parsers
  // ---------------------------------------------------------------------

  /** `z.string()` followed by the chain `checks`; the value is required. */
  /** A field that is present and holds a string. */
  predicate IsStr(v: Option<Json>) { v.Some? && v.value.JStr? }

  function ParseString(v: Option<Json>, checks: seq<Check>, path: seq<string>): (r: Result<string, seq<Issue>>)
    ensures r.Ok? <==> (v.Some? && v.value.JStr? && AllPass(v.value.s, checks))
    ensures r.Ok? ==> r.value == Transformed(v.value.s, checks)
    ensures r.Err? ==> r.error != [] && forall k :: 0 <= k < |r.error| ==> r.error[k].path == path
  {
    if v.Some? && v.value.JStr? then
      var issues := RunChecks(v.value.s, checks, path);
      if issues == [] then Ok(Transformed(v.value.s, checks)) else Err(issues)
    else Err([TypeIssue(path, "string", v)])
  }

  /** `.optional()`: undefined is accepted as absent. */
  function ParseOptionalString(v: Option<Json>, checks: seq<Check>, path: seq<string>): (r: Result<Option<string>, seq<Issue>>)
    ensures v.None? ==> r == Ok(None)
    ensures v.Some? ==> (r.Ok? <==> ParseString(v, checks, path).Ok?)
    ensures v.Some? && r.Ok? ==> r.value == Some(ParseString(v, checks, path).value)
  {
    if v.None? then Ok(None)
    else
      match ParseString(v, checks, path)
      case Ok(s) => Ok(Some(s))
      case Err(e) => Err(e)
  }

  /** A value that may be left out, may be null, or may be given. */
  datatype Nullish<+T> = Undefined | Null | Given(value: T)

  /** The nullish text a field carries as sent: left out, its text, or null
      (a value of another kind is refused before this is read). */
  function SentNullish(v: Option<Json>): Nullish<string>
  {
    if v.None? then Undefined else if v.value.JStr? then Given(v.value.s) else Null
  }

  /** `.optional().nullable()`: undefined and null are both accepted. */
  function ParseNullishString(v: Option<Json>, checks: seq<Check>, path: seq<string>): (r: Result<Nullish<string>, seq<Issue>>)
    ensures v.None? ==> r == Ok(Undefined)
    ensures v == Some(JNull) ==> r == Ok(Null)
    ensures v.Some? && v.value != JNull ==> (r.Ok? <==> ParseString(v, checks, path).Ok?)
    ensures r.Ok? && r.value.Given? ==> v.Some? && r.value.value == ParseString(v, checks, path).value
  {
    if v.None? then Ok(Undefined)
    else if v.value == JNull then Ok(Null)
    else
      match ParseString(v, checks, path)
      case Ok(s) => Ok(Given(s))
      case Err(e) => Err(e)
  }

  /** `z.boolean()`. */
  function ParseBool(v: Option<Json>, path: seq<string>): (r: Result<bool, seq<Issue>>)
    ensures r.Ok? <==> v.Some? && v.value.JBool?
    ensures r.Ok? ==> r.value == v.value.b
  {
    if v.Some? && v.value.JBool? then Ok(v.value.b) else Err([TypeIssue(path, "boolean", v)])
  }

  /** The options of an enum as the library lists them: 'a' | 'b' | 'c'. */
  function QuotedOptions(options: seq<string>): string
  {
    if options == [] then []
    else if |options| == 1 then "'" + options[0] + "'"
    else "'" + options[0] + "' | " + QuotedOptions(options[1..])
  }

  function IndexIn(options: seq<string>, s: string): (i: nat)
    requires s in options
    ensures i < |options| && options[i] == s
  {
    if options[0] == s then 0 else 1 + IndexIn(options[1..], s)
  }

  /** `z.enum(options)`: the index of the option received. */
  function ParseEnum(v: Option<Json>, options: seq<string>, path: seq<string>): (r: Result<nat, seq<Issue>>)
    ensures r.Ok? <==> v.Some? && v.value.JStr? && v.value.s in options
    ensures r.Ok? ==> r.value < |options| && options[r.value] == v.value.s
  {
    if v.Some? && v.value.JStr? then
      if v.value.s in options then Ok(IndexIn(options, v.value.s))
      else Err([Issue(path, InvalidEnumValue,
                      "Invalid enum value. Expected " + QuotedOptions(options) + ", received '" + v.value.s + "'")])
    else Err([TypeIssue(path, QuotedOptions(options), v)])
  }

  predicate IsInteger(n: real) { n.Floor as real == n }

  /** `z.number().int().positive()`: both checks run and report separately. */
  function ParsePositiveInt(v: Option<Json>, path: seq<string>): (r: Result<int, seq<Issue>>)
    ensures r.Ok? <==> v.Some? && v.value.JNum? && IsInteger(v.value.n) && v.value.n > 0.0
    ensures r.Ok? ==> r.value > 0 && r.value as real == v.value.n
  {
    if v.Some? && v.value.JNum? then
      var n := v.value.n;
      var issues :=
        (if IsInteger(n) then [] else [Issue(path, InvalidType, "Expected integer, received float")])
        + (if n > 0.0 then [] else [Issue(path, TooSmall, "Number must be greater than 0")]);
      if issues == [] then Ok(n.Floor) else Err(issues)
    else Err([TypeIssue(path, "number", v)])
  }

  /** `z.array(z.string().<checks>).max(maxItems, message)`: the length check
      first, then every element at path `path + [index]`. */
  function ParseStringArray(v: Option<Json>, checks: seq<Check>, maxItems: nat, message: string, path: seq<string>)
    : (r: Result<seq<string>, seq<Issue>>)
    ensures r.Ok? <==> v.Some? && v.value.JArr? && |v.value.items| <= maxItems
                        && forall k :: 0 <= k < |v.value.items| ==> ElementOk(v.value.items[k], checks)
    ensures r.Ok? ==> |r.value| == |v.value.items|
                      && forall k :: 0 <= k < |r.value| ==> r.value[k] == Transformed(v.value.items[k].s, checks)
  {
    if v.Some? && v.value.JArr? then
      var items := v.value.items;
      var lengthIssues := if |items| <= maxItems then [] else [Issue(path, TooBig, message)];
      var elements := ParseElements(items, checks, path, 0);
      if lengthIssues == [] && elements.Ok? then Ok(elements.value) else Err(lengthIssues + IssuesOf(elements))
    else Err([TypeIssue(path, "array", v)])
  }

  predicate ElementOk(item: Json, checks: seq<Check>)
  {
    item.JStr? && AllPass(item.s, checks)
  }

  function ParseElements(items: seq<Json>, checks: seq<Check>, path: seq<string>, first: nat): (r: Result<seq<string>, seq<Issue>>)
    ensures r.Ok? <==> forall k :: 0 <= k < |items| ==> ElementOk(items[k], checks)
    ensures r.Ok? ==> |r.value| == |items| && forall k :: 0 <= k < |items| ==> r.value[k] == Transformed(items[k].s, checks)
    ensures r.Err? ==> r.error != []
  {
    if items == [] then Ok([])
    else
      var head := ParseString(Some(items[0]), checks, path + [NatToString(first)]);
      var tail := ParseElements(items[1..], checks, path, first + 1);
      if head.Ok? && tail.Ok? then Ok([head.value] + tail.value)
      else Err(IssuesOf(head) + IssuesOf(tail))
  }

  /** `z.object(...)` accepts only an object; any other value is one issue at the root. */
  function ObjectFields(v: Json): (r: Result<map<string, Json>, seq<Issue>>)
    ensures r.Ok? <==> v.JObj?
    ensures r.Ok? ==> r.value == v.fields
  {
    if v.JObj? then Ok(v.fields) else Err([TypeIssue([], "object", Some(v))])
  }
}
