/**
 * The few JavaScript string and number built-ins the storefront's handlers
 * depend on: `String.prototype.trim`, `String.prototype.split(sep)[0]`,
 * `parseInt` and `Number.prototype.toString` on integers.
 */
module Text {

  /** A JavaScript number as the storefront produces it: an integer, or NaN
      when `parseInt` finds no digits. */
  datatype Num = Int(value: int) | NaN

  /** The characters `trim` and `parseInt` skip: ECMAScript WhiteSpace and
      LineTerminator code points. */
  predicate IsWhitespace(c: char) {
    || c == '\t' || c == '\n' || c == '\U{000B}' || c == '\U{000C}' || c == '\r'
    || c == ' ' || c == '\U{00A0}' || c == '\U{1680}'
    || ('\U{2000}' <= c <= '\U{200A}')
    || c == '\U{2028}' || c == '\U{2029}' || c == '\U{202F}' || c == '\U{205F}'
    || c == '\U{3000}' || c == '\U{FEFF}'
  }

  predicate AllWhitespace(s: string) {
    forall i :: 0 <= i < |s| ==> IsWhitespace(s[i])
  }

  /** `s.trimStart()` */
  function TrimStart(s: string): string {
    if s != [] && IsWhitespace(s[0]) then TrimStart(s[1..]) else s
  }

  /** `s.trimEnd()` */
  function TrimEnd(s: string): string {
    if s != [] && IsWhitespace(s[|s| - 1]) then TrimEnd(s[..|s| - 1]) else s
  }

  /** `trimStart` removes a whitespace prefix and stops at the first other character. */
  lemma {:induction false} TrimStartRemovesPrefix(s: string)
    ensures var r := TrimStart(s);
            && |r| <= |s| && r == s[|s| - |r|..]
            && (r != [] ==> !IsWhitespace(r[0]))
            && AllWhitespace(s[..|s| - |r|])
  {
    if s != [] && IsWhitespace(s[0]) {
      TrimStartRemovesPrefix(s[1..]);
      var r := TrimStart(s[1..]);
      assert s[..|s| - |r|] == [s[0]] + s[1..][..|s| - 1 - |r|];
    }
  }

  /** `trimEnd` removes a whitespace suffix and stops at the last other character. */
  lemma {:induction false} TrimEndRemovesSuffix(s: string)
    ensures var r := TrimEnd(s);
            && |r| <= |s| && r == s[..|r|]
            && (r != [] ==> !IsWhitespace(r[|r| - 1]))
            && AllWhitespace(s[|r|..])
  {
    if s != [] && IsWhitespace(s[|s| - 1]) {
      TrimEndRemovesSuffix(s[..|s| - 1]);
      var r := TrimEnd(s[..|s| - 1]);
      assert s[|r|..] == s[..|s| - 1][|r|..] + [s[|s| - 1]];
    }
  }

  /** `s.trim()` */
  function Trim(s: string): (t: string)
    ensures |t| <= |s|
    ensures t != [] ==> !IsWhitespace(t[0]) && !IsWhitespace(t[|t| - 1])
  {
    TrimStartRemovesPrefix(s);
    TrimEndRemovesSuffix(TrimStart(s));
    TrimEnd(TrimStart(s))
  }

  /** `!s.trim()` holds exactly when every character of `s` is whitespace. */
  lemma {:induction false} TrimEmptyIffBlank(s: string)
    ensures Trim(s) == [] <==> AllWhitespace(s)
  {
    var t := TrimStart(s);
    TrimStartRemovesPrefix(s);
    TrimEndRemovesSuffix(t);
    var p := s[..|s| - |t|];
    assert s == p + t;
    if t != [] {
      assert t[0] == s[|p|];
    }
    assert t[0..] == t;
  }

  /** `s.split(sep)[0]`: everything before the first `sep`, or all of `s`. */
  function Before(s: string, sep: char): (r: string)
    ensures |r| <= |s| && r == s[..|r|]
    ensures sep !in r
    ensures |r| < |s| ==> s[|r|] == sep
  {
    if s == [] || s[0] == sep then [] else [s[0]] + Before(s[1..], sep)
  }

  predicate IsDigit(c: char) {
    '0' <= c <= '9'
  }

  predicate AllDigits(s: string) {
    forall i :: 0 <= i < |s| ==> IsDigit(s[i])
  }

  function DigitChar(d: nat): (c: char)
    requires d < 10
    ensures IsDigit(c)
  {
    ('0' as int + d) as char
  }

  function DigitValue(c: char): (d: nat)
    requires IsDigit(c)
    ensures d < 10 && DigitChar(d) == c
  {
    c as int - '0' as int
  }

  /** The decimal numeral of `n`, without leading zeros, as `toString` writes it. */
  function Decimal(n: nat): (s: string)
    ensures s != [] && AllDigits(s)
    ensures |s| > 1 ==> s[0] != '0'
  {
    if n < 10 then [DigitChar(n)] else Decimal(n / 10) + [DigitChar(n % 10)]
  }

  /** The value of a string of decimal digits. */
  function ValueOf(s: string): nat
    requires AllDigits(s)
  {
    if s == [] then 0 else ValueOf(s[..|s| - 1]) * 10 + DigitValue(s[|s| - 1])
  }

  lemma {:induction false} ValueOfDecimal(n: nat)
    ensures ValueOf(Decimal(n)) == n
  {
    if n >= 10 {
      var s := Decimal(n);
      assert s[..|s| - 1] == Decimal(n / 10);
      ValueOfDecimal(n / 10);
    }
  }

  /** The length of the run of decimal digits at the start of `s`. */
  function DigitRun(s: string): (k: nat)
    ensures k <= |s| && AllDigits(s[..k])
    ensures k < |s| ==> !IsDigit(s[k])
  {
    if s == [] || !IsDigit(s[0]) then 0
    else
      var k := 1 + DigitRun(s[1..]);
      assert s[..k] == [s[0]] + s[1..][..k - 1];
      k
  }

  function Negate(n: Num): Num {
    match n
    case Int(v) => Int(-v)
    case NaN => NaN
  }

  function ParseDigits(s: string): (n: Num)
    ensures n.NaN? <==> s == [] || !IsDigit(s[0])
    ensures n.Int? ==> n.value >= 0
  {
    var k := DigitRun(s);
    if k == 0 then NaN else Int(ValueOf(s[..k]))
  }

  /**
   * `parseInt(s)` in base 10: leading whitespace is skipped, one sign is
   * read, then the longest run of decimal digits; no digits gives NaN.
   */
  function ParseInt(s: string): (n: Num)
    ensures s == [] ==> n == NaN
  {
    var t := TrimStart(s);
    if t != [] && t[0] == '-' then Negate(ParseDigits(t[1..]))
    else if t != [] && t[0] == '+' then ParseDigits(t[1..])
    else ParseDigits(t)
  }

  /** `n.toString()` */
  function ToString(n: Num): (s: string)
    ensures s != []
    ensures n.Int? && n.value >= 0 ==> AllDigits(s)
    ensures n.Int? && n.value < 0 ==> s[0] == '-' && AllDigits(s[1..])
    ensures n.NaN? ==> !IsDigit(s[0])
  {
    match n
    case NaN => "NaN"
    case Int(v) => if v < 0 then "-" + Decimal(-v) else Decimal(v)
  }

  lemma ParseDecimal(n: nat)
    ensures ParseDigits(Decimal(n)) == Int(n)
  {
    var s := Decimal(n);
    assert s[..|s|] == s;
    ValueOfDecimal(n);
  }

  lemma TrimStartKeeps(s: string)
    requires s != [] && !IsWhitespace(s[0])
    ensures TrimStart(s) == s
  {
  }

  lemma ParseNonNegative(v: nat)
    ensures ParseInt(ToString(Int(v))) == Int(v)
  {
    var s := Decimal(v);
    assert IsDigit(s[0]);
    TrimStartKeeps(s);
    ParseDecimal(v);
  }

  lemma ParseNegative(v: int)
    requires v < 0
    ensures ParseInt(ToString(Int(v))) == Int(v)
  {
    var d := Decimal(-v);
    var s := ['-'] + d;
    assert ToString(Int(v)) == s;
    TrimStartKeeps(s);
    assert s[1..] == d;
    ParseDecimal(-v);
    assert ParseDigits(s[1..]) == Int(-v);
  }

  /** Reading back what `toString` wrote gives the same number, NaN included. */
  lemma {:induction false} ParseIntToString(n: Num)
    ensures ParseInt(ToString(n)) == n
  {
    match n
    case NaN =>
      TrimStartKeeps("NaN");
    case Int(v) =>
      if v < 0 { ParseNegative(v); } else { ParseNonNegative(v); }
  }
}
