/** Shared value types and the string operations of the JavaScript runtime
    that the validators and services rely on. */
module Base {

  datatype Option<+T> = None | Some(value: T)

  datatype Result<+T, +E> = Ok(value: T) | Err(error: E)

  /** One field of a partial update: left out of the input, or supplied. */
  datatype Patch<+T> = Keep | Set(value: T)

  // ---------------------------------------------------------------------
  // Whitespace and String.prototype.trim
  // ---------------------------------------------------------------------

  /** The WhiteSpace and LineTerminator code points that `trim` removes. */
  predicate IsWhitespace(c: char)
  {
    c == ' ' || c == '\t' || c == '\n' || c == '\r' || c == '\U{B}' || c == '\U{C}'
    || c == '\U{A0}' || c == '\U{FEFF}' || c == '\U{1680}'
    || ('\U{2000}' <= c <= '\U{200A}')
    || c == '\U{2028}' || c == '\U{2029}' || c == '\U{202F}' || c == '\U{205F}' || c == '\U{3000}'
  }

  predicate AllWhitespace(s: string)
  {
    forall i :: 0 <= i < |s| ==> IsWhitespace(s[i])
  }

  /** Number of leading whitespace characters. */
  function LeadingSpace(s: string): (n: nat)
    ensures n <= |s|
    ensures AllWhitespace(s[..n])
    ensures n < |s| ==> !IsWhitespace(s[n])
  {
    if s == [] || !IsWhitespace(s[0]) then 0
    else
      var m := LeadingSpace(s[1..]);
      assert s[1..][..m] == s[1..m + 1];
      1 + m
  }

  /** Number of trailing whitespace characters. */
  function TrailingSpace(s: string): (n: nat)
    ensures n <= |s|
    ensures AllWhitespace(s[|s| - n..])
    ensures n < |s| ==> !IsWhitespace(s[|s| - n - 1])
  {
    if s == [] || !IsWhitespace(s[|s| - 1]) then 0
    else
      var init := s[..|s| - 1];
      var m := TrailingSpace(init);
      assert s[|s| - 1 - m..] == init[|init| - m..] + [s[|s| - 1]];
      assert m < |init| ==> init[|init| - m - 1] == s[|s| - (1 + m) - 1];
      1 + m
  }

  /** `s.trim()`: the text between the leading and the trailing whitespace. */
  function Trim(s: string): (r: string)
    ensures |r| <= |s|
    ensures r == [] || (!IsWhitespace(r[0]) && !IsWhitespace(r[|r| - 1]))
    ensures r == [] <==> AllWhitespace(s)
    ensures exists i, j :: 0 <= i <= j <= |s| && r == s[i..j] && AllWhitespace(s[..i]) && AllWhitespace(s[j..])
  {
    var lead := LeadingSpace(s);
    if lead == |s| then
      assert s[..|s|] == s;
      assert s[..0] == [] && s[0..0] == [];
      []
    else
      var trail := TrailingSpace(s);
      assert !AllWhitespace(s) by { assert !IsWhitespace(s[lead]); }
      assert lead < |s| - trail;
      s[lead..|s| - trail]
  }

  /** Trimming twice is trimming once. */
  lemma TrimIdempotent(s: string)
    ensures Trim(Trim(s)) == Trim(s)
  {
    var t := Trim(s);
    if t != [] {
      assert LeadingSpace(t) == 0;
      assert TrailingSpace(t) == 0;
      assert t[0..|t|] == t;
    }
  }

  // ---------------------------------------------------------------------
  // Prefixes, substrings and case folding
  // ---------------------------------------------------------------------

  predicate StartsWith(s: string, prefix: string)
  {
    |prefix| <= |s| && s[..|prefix|] == prefix
  }

  /** `needle` occurs in `hay` at position `i`. */
  predicate OccursAt(needle: string, hay: string, i: int)
  {
    0 <= i && i + |needle| <= |hay| && hay[i..i + |needle|] == needle
  }

  predicate IsSubstring(needle: string, hay: string)
  {
    exists i :: 0 <= i <= |hay| - |needle| && OccursAt(needle, hay, i)
  }

  /** ASCII lower-casing, the folding applied on both sides of a case-insensitive match. */
  function LowerChar(c: char): char
  {
    if 'A' <= c <= 'Z' then (c as int + 32) as char else c
  }

  function Lower(s: string): (r: string)
    ensures |r| == |s|
    ensures forall i :: 0 <= i < |s| ==> r[i] == LowerChar(s[i])
  {
    if s == [] then [] else [LowerChar(s[0])] + Lower(s[1..])
  }

  /** Case-insensitive substring test. */
  predicate ContainsIgnoringCase(hay: string, needle: string)
  {
    IsSubstring(Lower(needle), Lower(hay))
  }

  /** The text of `s` before the first occurrence of `delim` (all of `s` when there is none). */
  function TextBefore(s: string, delim: string): (r: string)
    requires delim != []
    ensures StartsWith(s, r)
    ensures !IsSubstring(delim, r)
    ensures r == s || StartsWith(s[|r|..], delim)
    ensures r == [] <==> (s == [] || StartsWith(s, delim))
  {
    if |s| < |delim| then
      assert !IsSubstring(delim, s);
      s
    else if s[..|delim|] == delim then
      assert !IsSubstring(delim, []);
      []
    else
      var rest := TextBefore(s[1..], delim);
      var r := [s[0]] + rest;
      assert StartsWith(s, r) by { assert s == [s[0]] + s[1..]; }
      assert s[|r|..] == s[1..][|rest|..];
      ConsKeepsNoDelim(s, delim, rest);
      r
  }

  /** Putting back the first character of `s` creates no occurrence of `delim`
      when `s` does not start with it. */
  lemma ConsKeepsNoDelim(s: string, delim: string, rest: string)
    requires |s| >= |delim| > 0 && s[..|delim|] != delim
    requires StartsWith(s[1..], rest) && !IsSubstring(delim, rest)
    ensures !IsSubstring(delim, [s[0]] + rest)
  {
    var r := [s[0]] + rest;
    forall i | 0 <= i <= |r| - |delim| ensures !OccursAt(delim, r, i) {
      if i == 0 {
        assert r[..|delim|] == s[..|delim|];
      } else {
        assert r[i..i + |delim|] == rest[i - 1..i - 1 + |delim|];
        assert !OccursAt(delim, rest, i - 1);
      }
    }
  }

  // ---------------------------------------------------------------------
  // Split and join
  // ---------------------------------------------------------------------

  /** Position of the first `c` in `s`. */
  function IndexOf(s: string, c: char): (i: nat)
    requires c in s
    ensures i < |s| && s[i] == c && c !in s[..i]
  {
    if s[0] == c then 0
    else
      var j := IndexOf(s[1..], c);
      assert s[..j + 1] == [s[0]] + s[1..][..j];
      j + 1
  }

  /** `s.split(sep)` for a one-character separator. */
  function Split(s: string, sep: char): (parts: seq<string>)
    ensures |parts| >= 1
    ensures forall k :: 0 <= k < |parts| ==> sep !in parts[k]
    decreases |s|
  {
    if sep !in s then [s]
    else
      var i := IndexOf(s, sep);
      [s[..i]] + Split(s[i + 1..], sep)
  }

  /** `parts.join(sep)`. */
  function Join(parts: seq<string>, sep: string): string
  {
    if parts == [] then []
    else if |parts| == 1 then parts[0]
    else parts[0] + sep + Join(parts[1..], sep)
  }

  /** Joining the pieces of a split with the separator gives back the text. */
  lemma {:induction false} JoinSplit(s: string, sep: char)
    ensures Join(Split(s, sep), [sep]) == s
    decreases |s|
  {
    if sep in s {
      var i := IndexOf(s, sep);
      var rest := Split(s[i + 1..], sep);
      assert s == s[..i] + [sep] + s[i + 1..] by {
        assert s[..i + 1] == s[..i] + [sep];
      }
      assert Split(s, sep) == [s[..i]] + rest;
      JoinSplit(s[i + 1..], sep);
      JoinCons(s[..i], rest, [sep]);
    }
  }

  /** Joining a first piece in front of at least one more. */
  lemma JoinCons(first: string, rest: seq<string>, sep: string)
    requires rest != []
    ensures Join([first] + rest, sep) == first + sep + Join(rest, sep)
  {
    assert ([first] + rest)[1..] == rest;
  }

  /** Splitting a join of separator-free pieces gives back the pieces. */
  lemma {:induction false} SplitJoin(parts: seq<string>, sep: char)
    requires |parts| >= 1
    requires forall k :: 0 <= k < |parts| ==> sep !in parts[k]
    ensures Split(Join(parts, [sep]), sep) == parts
    decreases |parts|
  {
    if |parts| > 1 {
      var s := Join(parts, [sep]);
      var tail := Join(parts[1..], [sep]);
      assert s == parts[0] + [sep] + tail;
      assert sep in s by { assert s[|parts[0]|] == sep; }
      var i := IndexOf(s, sep);
      assert i == |parts[0]|;
      assert s[..i] == parts[0];
      assert s[i + 1..] == tail;
      SplitJoin(parts[1..], sep);
    }
  }

  // ---------------------------------------------------------------------
  // Decimal digits
  // ---------------------------------------------------------------------

  predicate IsDigit(c: char) { '0' <= c <= '9' }
  predicate IsUpper(c: char) { 'A' <= c <= 'Z' }
  predicate IsLower(c: char) { 'a' <= c <= 'z' }
  predicate IsAlnum(c: char) { IsUpper(c) || IsLower(c) || IsDigit(c) }

  predicate AllDigits(s: string)
  {
    forall i :: 0 <= i < |s| ==> IsDigit(s[i])
  }

  /** Value of a string of decimal digits, most significant first. */
  function DigitsValue(s: string): (n: nat)
    requires AllDigits(s)
  {
    if s == [] then 0
    else DigitsValue(s[..|s| - 1]) * 10 + (s[|s| - 1] as int - '0' as int)
  }

  /** Decimal rendering of a natural number. */
  function NatToString(n: nat): (s: string)
    ensures s != [] && AllDigits(s)
    ensures DigitsValue(s) == n
  {
    var last := ((n % 10) + '0' as int) as char;
    if n < 10 then
      assert [last][..0] == [];
      [last]
    else
      var front := NatToString(n / 10);
      var s := front + [last];
      assert s[..|s| - 1] == front;
      s
  }

  /** Length of the longest prefix of decimal digits. */
  function DigitPrefix(s: string): (n: nat)
    ensures n <= |s| && AllDigits(s[..n])
    ensures n < |s| ==> !IsDigit(s[n])
  {
    if s == [] || !IsDigit(s[0]) then 0
    else
      var m := DigitPrefix(s[1..]);
      assert s[..m + 1] == [s[0]] + s[1..][..m];
      m + 1
  }

  /** `parseInt(s, 10)`: leading whitespace skipped, an optional sign, then the
      longest run of digits; None stands for NaN (no digit at all). */
  function ParseIntJs(s: string): (r: Option<int>)
    ensures AllDigits(s) && s != [] ==> r == Some(DigitsValue(s))
  {
    var t := s[LeadingSpace(s)..];
    var negative := t != [] && t[0] == '-';
    var rest := if t != [] && (t[0] == '-' || t[0] == '+') then t[1..] else t;
    var n := DigitPrefix(rest);
    if n == 0 then None
    else
      assert AllDigits(s) && s != [] ==> LeadingSpace(s) == 0 && rest == s && rest[..n] == s;
      var magnitude: int := DigitsValue(rest[..n]);
      Some(if negative then -magnitude else magnitude)
  }

  // ---------------------------------------------------------------------
  // Number(s) and the relational operators on a string and a number
  // ---------------------------------------------------------------------

  /** A JavaScript number as comparisons see it: NaN, an infinity, or a finite
      value, taken as an exact real. */
  datatype JsNumber = NaN | PosInfinity | NegInfinity | Finite(x: real)

  /** `x > 0`: false for NaN. */
  predicate AboveZero(n: JsNumber)
  {
    n.PosInfinity? || (n.Finite? && n.x > 0.0)
  }

  /** `x <= bound`: false for NaN. */
  predicate AtMost(n: JsNumber, bound: nat)
  {
    n.NegInfinity? || (n.Finite? && n.x <= bound as real)
  }

  function Pow10(e: nat): (r: real)
    ensures r >= 1.0
  {
    if e == 0 then 1.0 else 10.0 * Pow10(e - 1)
  }

  /** `d × 10^e`. */
  function Scale(d: real, e: int): real
  {
    if e >= 0 then d * Pow10(e) else d / Pow10(-e)
  }

  function DigitOf(c: char): nat
  {
    if IsDigit(c) then c as int - '0' as int
    else if 'a' <= c <= 'f' then c as int - 'a' as int + 10
    else if 'A' <= c <= 'F' then c as int - 'A' as int + 10
    else 16
  }

  /** Value of a run of digits in the given base; None when some character is
      not a digit of that base or the run is empty. */
  function RadixValue(s: string, base: nat): Option<nat>
    requires 2 <= base <= 16
  {
    if s == [] || exists i :: 0 <= i < |s| && DigitOf(s[i]) >= base then None
    else Some(RadixDigits(0, s, base))
  }

  /** Horner's rule from the most significant digit, `acc` holding the digits read so far. */
  function RadixDigits(acc: nat, s: string, base: nat): nat
    decreases |s|
  {
    if s == [] then acc else RadixDigits(acc * base + DigitOf(s[0]), s[1..], base)
  }

  /** The exponent part of a decimal literal: empty, or `e`/`E`, an optional
      sign and at least one digit, reaching the end of the text. */
  function ExponentPart(s: string): Option<int>
  {
    if s == [] then Some(0)
    else if s[0] != 'e' && s[0] != 'E' then None
    else
      var negative := |s| > 1 && s[1] == '-';
      var digits := if |s| > 1 && (s[1] == '-' || s[1] == '+') then s[2..] else s[1..];
      if digits == [] || !AllDigits(digits) then None
      else
        var e: int := DigitsValue(digits);
        Some(if negative then -e else e)
  }

  /** An unsigned StrDecimalLiteral: digits, an optional point with optional
      digits, at least one digit in all, then an optional exponent. */
  function DecimalValue(s: string): Option<real>
  {
    var i := DigitPrefix(s);
    var whole := s[..i];
    var afterWhole := s[i..];
    var hasPoint := afterWhole != [] && afterWhole[0] == '.';
    var afterPoint := if hasPoint then afterWhole[1..] else afterWhole;
    var j := if hasPoint then DigitPrefix(afterPoint) else 0;
    var fraction := afterPoint[..j];
    var exponent := ExponentPart(afterPoint[j..]);
    if whole + fraction == [] || exponent.None? then None
    else Some(Scale(DigitsValue(whole + fraction) as real, exponent.value - |fraction|))
  }

  /** `Number(s)` (StringToNumber): surrounding whitespace is ignored and the
      empty text is 0. The rounding to a double is not modelled. */
  function StringToNumber(s: string): JsNumber
  {
    var t := Trim(s);
    if t == [] then Finite(0.0)
    else if IsRadixLiteral(t) then RadixNumber(t)
    else SignedNumber(t)
  }

  /** A NonDecimalIntegerLiteral starts `0x`, `0o` or `0b`, in either case. */
  predicate IsRadixLiteral(t: string)
  {
    |t| >= 2 && t[0] == '0' && (t[1] == 'x' || t[1] == 'X' || t[1] == 'o' || t[1] == 'O' || t[1] == 'b' || t[1] == 'B')
  }

  /** An unsigned hexadecimal, octal or binary integer; NaN when a digit is out of range. */
  function RadixNumber(t: string): JsNumber
    requires IsRadixLiteral(t)
  {
    var base := if t[1] == 'x' || t[1] == 'X' then 16 else if t[1] == 'o' || t[1] == 'O' then 8 else 2;
    var v := RadixValue(t[2..], base);
    if v.Some? then Finite(v.value as real) else NaN
  }

  /** An optional sign, then `Infinity` or a decimal literal; anything else is NaN. */
  function SignedNumber(t: string): JsNumber
    requires t != []
  {
    var negative := t[0] == '-';
    var u := if t[0] == '-' || t[0] == '+' then t[1..] else t;
    if u == "Infinity" then (if negative then NegInfinity else PosInfinity)
    else
      var d := DecimalValue(u);
      if d.None? then NaN else Finite(if negative then -d.value else d.value)
  }

  /** On a run of decimal digits `Number` and the digits' value agree. */
  lemma NumberOfDigits(s: string)
    requires s != [] && AllDigits(s)
    ensures StringToNumber(s) == Finite(DigitsValue(s) as real)
  {
    DigitsTrimmed(s);
    DigitsNotRadix(s);
    DigitsSigned(s);
  }

  lemma DigitsTrimmed(s: string)
    requires s != [] && AllDigits(s)
    ensures Trim(s) == s
  {
    assert IsDigit(s[0]) && IsDigit(s[|s| - 1]);
    TrimUnpadded(s);
  }

  lemma DigitsNotRadix(s: string)
    requires s != [] && AllDigits(s)
    ensures !IsRadixLiteral(s)
  {
    if |s| >= 2 { assert IsDigit(s[1]); }
  }

  lemma DigitsSigned(s: string)
    requires s != [] && AllDigits(s)
    ensures SignedNumber(s) == Finite(DigitsValue(s) as real)
  {
    assert IsDigit(s[0]);
    assert s != "Infinity" by { assert !IsDigit("Infinity"[0]); }
    DigitsDecimal(s);
  }

  /** A text that neither starts nor ends with whitespace is its own trim. */
  lemma TrimUnpadded(s: string)
    requires s != [] && !IsWhitespace(s[0]) && !IsWhitespace(s[|s| - 1])
    ensures Trim(s) == s
  {
    assert LeadingSpace(s) == 0;
    assert TrailingSpace(s) == 0;
    assert s[0..|s|] == s;
  }

  lemma DigitsDecimal(s: string)
    requires s != [] && AllDigits(s)
    ensures DecimalValue(s) == Some(DigitsValue(s) as real)
  {
    assert DigitPrefix(s) == |s|;
    assert s[..|s|] == s && s[|s|..] == [];
    assert ExponentPart([]) == Some(0);
    assert s + [] == s;
    assert Scale(DigitsValue(s) as real, 0) == DigitsValue(s) as real;
  }
}
