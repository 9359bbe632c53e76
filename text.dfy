/** The optional value of the JavaScript code: `null`, `undefined` or `NaN` on one side, a value on the other. */
module Optional {
  datatype Option<+T> = None | Some(value: T)
}

/**
 * The string primitives the screens and services rely on: ECMAScript's `parseInt` (radix left out),
 * `Number.prototype.toString` on integers, `String.prototype.trim`, `Array.prototype.join(", ")`,
 * an ASCII `toLowerCase` and a character-code order that stands for `localeCompare`.
 */
module Text {
  import opened Optional

  /** Value of `c` as a digit of a radix up to 36, or -1 when it is no digit at all. */
  function DigitOf(c: char): int {
    if '0' <= c <= '9' then c as int - '0' as int
    else if 'a' <= c <= 'z' then c as int - 'a' as int + 10
    else if 'A' <= c <= 'Z' then c as int - 'A' as int + 10
    else -1
  }

  predicate IsRadixDigit(c: char, radix: nat) {
    0 <= DigitOf(c) < radix
  }

  predicate IsDigit(c: char) {
    IsRadixDigit(c, 10)
  }

  predicate AllRadixDigits(s: string, radix: nat) {
    forall i :: 0 <= i < |s| ==> IsRadixDigit(s[i], radix)
  }

  /** The number a string of digits denotes, most significant digit first. */
  function Value(s: string, radix: nat): nat
    requires AllRadixDigits(s, radix)
  {
    if s == [] then 0 else radix * Value(s[..|s| - 1], radix) + DigitOf(s[|s| - 1])
  }

  function DigitChar(d: nat): (c: char)
    requires d < 10
    ensures IsDigit(c) && DigitOf(c) == d
  {
    ('0' as int + d) as char
  }

  /** Decimal notation of a natural number, as `Number.prototype.toString` writes it. */
  function NatToString(n: nat): (s: string)
    ensures 1 <= |s| && AllRadixDigits(s, 10)
    ensures (s[0] == '0') == (n == 0)
  {
    if n < 10 then [DigitChar(n)] else NatToString(n / 10) + [DigitChar(n % 10)]
  }

  /** Decimal notation of an integer: a minus sign in front of a negative one. */
  function IntToString(x: int): (s: string)
    ensures 1 <= |s|
    ensures (s[0] == '-') == (x < 0)
  {
    if x < 0 then "-" + NatToString(-x) else NatToString(x)
  }

  lemma {:induction false} NatToStringValue(n: nat)
    ensures Value(NatToString(n), 10) == n
  {
    if n >= 10 {
      NatToStringValue(n / 10);
      var s := NatToString(n);
      assert s[..|s| - 1] == NatToString(n / 10);
    }
  }

  /** Length of the longest run of radix digits starting at index `i`. */
  function RadixRun(s: string, i: nat, radix: nat): (k: nat)
    requires i <= |s|
    ensures i + k <= |s|
    ensures i + k == |s| || !IsRadixDigit(s[i + k], radix)
    decreases |s| - i
  {
    if i < |s| && IsRadixDigit(s[i], radix) then 1 + RadixRun(s, i + 1, radix) else 0
  }

  /** Every character of the run is a digit. */
  lemma {:induction false} RadixRunDigits(s: string, i: nat, radix: nat)
    requires i <= |s|
    ensures AllRadixDigits(s[i..i + RadixRun(s, i, radix)], radix)
    decreases |s| - i
  {
    if i < |s| && IsRadixDigit(s[i], radix) {
      RadixRunDigits(s, i + 1, radix);
      var k := RadixRun(s, i + 1, radix);
      assert s[i..i + 1 + k] == [s[i]] + s[i + 1..i + 1 + k];
    }
  }

  lemma {:induction false} RadixRunOfDigits(s: string, i: nat, radix: nat)
    requires i <= |s| && AllRadixDigits(s[i..], radix)
    ensures RadixRun(s, i, radix) == |s| - i
    decreases |s| - i
  {
    if i < |s| {
      assert s[i] == s[i..][0];
      assert s[i + 1..] == s[i..][1..];
      RadixRunOfDigits(s, i + 1, radix);
    }
  }

  /**
   * ECMAScript's white space and line terminators: tab, vertical tab, form feed, space,
   * no-break space, byte order mark, the Zs space separators, line feed, carriage return,
   * line and paragraph separators.
   */
  predicate IsWhitespace(c: char) {
    var n := c as int;
    n == 0x09 || n == 0x0B || n == 0x0C || n == 0x20 || n == 0xA0 || n == 0xFEFF
    || n == 0x1680 || (0x2000 <= n <= 0x200A) || n == 0x202F || n == 0x205F || n == 0x3000
    || n == 0x0A || n == 0x0D || n == 0x2028 || n == 0x2029
  }

  function TrimStart(s: string): (r: string)
    ensures |r| <= |s| && r == s[|s| - |r|..]
    ensures r == [] || !IsWhitespace(r[0])
  {
    if s != [] && IsWhitespace(s[0]) then TrimStart(s[1..]) else s
  }

  function TrimEnd(s: string): (r: string)
    ensures |r| <= |s| && r == s[..|r|]
    ensures r == [] || !IsWhitespace(r[|r| - 1])
  {
    if s != [] && IsWhitespace(s[|s| - 1]) then TrimEnd(s[..|s| - 1]) else s
  }

  /** `String.prototype.trim`. */
  function Trim(s: string): string {
    TrimEnd(TrimStart(s))
  }

  predicate IsBlank(s: string) {
    forall i :: 0 <= i < |s| ==> IsWhitespace(s[i])
  }

  /** A string trims to nothing exactly when every character of it is white space. */
  lemma {:induction false} TrimEmptyIffBlank(s: string)
    ensures Trim(s) == [] <==> IsBlank(s)
  {
    if s != [] && IsWhitespace(s[0]) {
      TrimEmptyIffBlank(s[1..]);
      assert IsBlank(s) <==> IsBlank(s[1..]) by {
        if IsBlank(s[1..]) {
          forall i | 0 <= i < |s| ensures IsWhitespace(s[i]) {
            if i > 0 { assert s[i] == s[1..][i - 1]; }
          }
        }
      }
    } else if s != [] {
      assert TrimStart(s) == s;
      TrimEndKeeps(s, 0);
    }
  }

  /** Trimming the end keeps every character up to the last one that is not white space. */
  lemma {:induction false} TrimEndKeeps(s: string, i: nat)
    requires i < |s| && !IsWhitespace(s[i])
    ensures i < |TrimEnd(s)|
  {
    if IsWhitespace(s[|s| - 1]) {
      assert s[i] == s[..|s| - 1][i];
      TrimEndKeeps(s[..|s| - 1], i);
    }
  }

  lemma {:induction false} TrimEndEmpty(s: string)
    requires TrimEnd(s) == []
    ensures IsBlank(s)
  {
    if s != [] {
      if IsWhitespace(s[|s| - 1]) {
        TrimEndEmpty(s[..|s| - 1]);
        forall i | 0 <= i < |s| ensures IsWhitespace(s[i]) {
          if i < |s| - 1 { assert s[i] == s[..|s| - 1][i]; }
        }
      }
    }
  }

  /** The digits after the sign: a `0x`/`0X` prefix selects base 16, otherwise base 10. */
  function ParseUnsigned(u: string): Option<nat> {
    var hex := |u| >= 2 && u[0] == '0' && (u[1] == 'x' || u[1] == 'X');
    var radix := if hex then 16 else 10;
    var body := if hex then u[2..] else u;
    var k := RadixRun(body, 0, radix);
    RadixRunDigits(body, 0, radix);
    assert body[..k] == body[0..0 + k];
    if k == 0 then None else Some(Value(body[..k], radix))
  }

  /**
   * ECMAScript's `parseInt` with the radix left out: leading white space is skipped, one sign
   * is read, and the longest run of digits that follows is read; no digits at all gives `NaN`,
   * here `None`.
   */
  function ParseInt(text: string): Option<int> {
    ParseSigned(TrimStart(text))
  }

  /** `parseInt` once the leading white space is gone: an optional sign, then the digits. */
  function ParseSigned(s: string): Option<int> {
    var negative := |s| > 0 && s[0] == '-';
    var unsigned := if |s| > 0 && (s[0] == '-' || s[0] == '+') then s[1..] else s;
    match ParseUnsigned(unsigned)
    case None => None
    case Some(v) => var n: int := v; Some(if negative then -n else n)
  }

  lemma ParseUnsignedOfDigits(s: string)
    requires s != [] && AllRadixDigits(s, 10)
    ensures ParseUnsigned(s) == Some(Value(s, 10))
  {
    assert !(|s| >= 2 && (s[1] == 'x' || s[1] == 'X')) by {
      if |s| >= 2 { assert IsRadixDigit(s[1], 10); }
    }
    assert s[0..] == s;
    RadixRunOfDigits(s, 0, 10);
    assert s[..|s|] == s;
  }

  /** `parseInt` of a non-empty string of decimal digits is the number they denote. */
  lemma ParseIntOfDigits(s: string)
    requires s != [] && AllRadixDigits(s, 10)
    ensures ParseInt(s) == Some(Value(s, 10))
  {
    assert IsRadixDigit(s[0], 10);
    StartsUntrimmed(s);
    ParseUnsignedOfDigits(s);
  }

  lemma StartsUntrimmed(s: string)
    requires s != [] && '0' <= s[0] <= '9'
    ensures TrimStart(s) == s
  {
  }

  /** `parseInt` reads back every integer that `toString` writes. */
  lemma ParseIntOfIntToString(x: int)
    ensures ParseInt(IntToString(x)) == Some(x)
  {
    var n: nat := if x < 0 then -x else x;
    var s := IntToString(x);
    assert !IsWhitespace(s[0]);
    assert TrimStart(s) == s;
    if x < 0 {
      assert s[1..] == NatToString(n);
    }
    ParseUnsignedOfDigits(NatToString(n));
    NatToStringValue(n);
  }

  /** `parseInt` of a sign followed by decimal digits. */
  lemma ParseIntSigned(s: string)
    requires 2 <= |s| && (s[0] == '+' || s[0] == '-') && AllRadixDigits(s[1..], 10)
    ensures ParseInt(s) == Some(if s[0] == '-' then 0 - Value(s[1..], 10) else Value(s[1..], 10) as int)
  {
    ParseUnsignedOfDigits(s[1..]);
    ParseIntOfSign(s, Value(s[1..], 10));
  }

  /** After a sign, `parseInt` reads the digits that follow and applies the sign. */
  lemma ParseIntOfSign(s: string, v: nat)
    requires s != [] && (s[0] == '+' || s[0] == '-')
    requires ParseUnsigned(s[1..]) == Some(v)
    ensures ParseInt(s) == Some(if s[0] == '-' then 0 - v else v as int)
  {
    SignedUntrimmed(s);
  }

  lemma SignedUntrimmed(s: string)
    requires s != [] && (s[0] == '+' || s[0] == '-')
    ensures TrimStart(s) == s
  {
  }

  function UpperChar(c: char): char {
    if 'a' <= c <= 'z' then (c as int - 32) as char else c
  }

  /**
   * `s.charAt(0).toUpperCase() + s.slice(1)`, ASCII letters only: the same text but for the
   * case of its first letter, which is no longer lower case.
   */
  function Capitalize(s: string): (r: string)
    ensures |r| == |s|
    ensures |s| > 0 ==> r[1..] == s[1..] && LowerChar(r[0]) == LowerChar(s[0]) && !('a' <= r[0] <= 'z')
  {
    if s == [] then [] else [UpperChar(s[0])] + s[1..]
  }

  function LowerChar(c: char): char {
    if 'A' <= c <= 'Z' then (c as int + 32) as char else c
  }

  /**
   * `toLowerCase`, restricted to the ASCII letters: no capital is left, every other character
   * stays, and each capital becomes the small letter whose capital it is.
   */
  function ToLower(s: string): (r: string)
    ensures |r| == |s|
    ensures forall i :: 0 <= i < |r| ==> !('A' <= r[i] <= 'Z')
    ensures forall i :: 0 <= i < |s| ==> r[i] == s[i] || ('A' <= s[i] <= 'Z' && UpperChar(r[i]) == s[i])
  {
    seq(|s|, i requires 0 <= i < |s| => LowerChar(s[i]))
  }

  /** The order `localeCompare` stands for here: lexicographic on character codes. */
  predicate NameLeq(a: string, b: string)
    decreases |a|
  {
    |a| == 0 || (|b| > 0 && (a[0] < b[0] || (a[0] == b[0] && NameLeq(a[1..], b[1..]))))
  }

  lemma {:induction false} NameLeqTotal(a: string, b: string)
    ensures NameLeq(a, b) || NameLeq(b, a)
    decreases |a|
  {
    if |a| > 0 && |b| > 0 && a[0] == b[0] {
      NameLeqTotal(a[1..], b[1..]);
    }
  }

  lemma {:induction false} NameLeqTransitive(a: string, b: string, c: string)
    requires NameLeq(a, b) && NameLeq(b, c)
    ensures NameLeq(a, c)
    decreases |a|
  {
    if |a| > 0 && a[0] == b[0] && b[0] == c[0] {
      NameLeqTransitive(a[1..], b[1..], c[1..]);
    }
  }

  lemma {:induction false} NameLeqAntisymmetric(a: string, b: string)
    requires NameLeq(a, b) && NameLeq(b, a)
    ensures a == b
    decreases |a|
  {
    if |a| > 0 {
      NameLeqAntisymmetric(a[1..], b[1..]);
      assert a == [a[0]] + a[1..] && b == [b[0]] + b[1..];
    }
  }

  /** `rolls.join(', ')` on a list of integers. */
  function JoinInts(xs: seq<int>): string {
    if |xs| == 0 then ""
    else if |xs| == 1 then IntToString(xs[0])
    else IntToString(xs[0]) + ", " + JoinInts(xs[1..])
  }
}
