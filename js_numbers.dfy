/** The JavaScript number built-ins that both visualizers apply to user input and
    instruction operands: `parseInt(s)` (always called without a radix) and
    `String(n)` for an integer `n`.  Numbers are mathematical integers here. */
module JsNumbers {
  import opened Wrappers

  /** The white space and line terminators `parseInt` skips before the number. */
  predicate IsJsWhiteSpace(c: char) {
    || c == '\t' || c == '\n' || c == '\U{000B}' || c == '\U{000C}' || c == '\r'
    || c == ' ' || c == '\U{00A0}' || c == '\U{1680}' || '\U{2000}' <= c <= '\U{200A}'
    || c == '\U{2028}' || c == '\U{2029}' || c == '\U{202F}' || c == '\U{205F}'
    || c == '\U{3000}' || c == '\U{FEFF}'
  }

  predicate IsDecimalDigit(c: char) {
    '0' <= c <= '9'
  }

  /** The value of `c` as a digit in base `radix`, if it is one (letters count from 10). */
  function DigitValue(c: char, radix: nat): (r: Option<nat>)
    ensures r.Some? ==> r.value < radix
    ensures radix == 10 ==> (r.Some? <==> IsDecimalDigit(c))
  {
    var d :=
      if '0' <= c <= '9' then c as int - '0' as int
      else if 'a' <= c <= 'z' then c as int - 'a' as int + 10
      else if 'A' <= c <= 'Z' then c as int - 'A' as int + 10
      else radix;
    if d < radix then Some(d) else None
  }

  predicate AllDigits(s: string, radix: nat) {
    forall i :: 0 <= i < |s| ==> DigitValue(s[i], radix).Some?
  }

  /** The length of the longest prefix of `s` made of base-`radix` digits. */
  function DigitPrefixLength(s: string, radix: nat): (n: nat)
    ensures n <= |s|
    ensures AllDigits(s[..n], radix)
    ensures n < |s| ==> DigitValue(s[n], radix).None?
  {
    if s == [] || DigitValue(s[0], radix).None? then 0
    else
      var m := DigitPrefixLength(s[1..], radix);
      assert s[..m + 1] == [s[0]] + s[1..][..m];
      m + 1
  }

  /** The number the base-`radix` digit string `s` denotes, most significant digit first. */
  function DigitsValue(s: string, radix: nat): nat
    requires AllDigits(s, radix)
  {
    if s == [] then 0
    else
      assert forall i :: 0 <= i < |s| - 1 ==> s[..|s| - 1][i] == s[i];
      DigitsValue(s[..|s| - 1], radix) * radix + DigitValue(s[|s| - 1], radix).value
  }

  /** `s` without its leading white space. */
  function TrimStart(s: string): (r: string)
    ensures |r| <= |s| && r == s[|s| - |r|..]
    ensures forall i :: 0 <= i < |s| - |r| ==> IsJsWhiteSpace(s[i])
    ensures r == [] || !IsJsWhiteSpace(r[0])
  {
    if s != [] && IsJsWhiteSpace(s[0]) then TrimStart(s[1..]) else s
  }

  /** JavaScript's `parseInt(s)` without a radix: skip leading white space, read an
      optional sign, then the magnitude.  `None` stands for `NaN`. */
  function ParseInt(s: string): (r: Option<int>)
    ensures r.Some? ==> exists i :: 0 <= i < |s| && IsDecimalDigit(s[i])
  {
    var t := TrimStart(s);
    assert t == s[|s| - |t|..];
    if t != [] && t[0] == '-' then
      match ParseMagnitude(t[1..])
      case None => None
      case Some(m) => assert IsDecimalDigit(s[|s| - |t| + 1]); Some(-(m as int))
    else if t != [] && t[0] == '+' then
      match ParseMagnitude(t[1..])
      case None => None
      case Some(m) => assert IsDecimalDigit(s[|s| - |t| + 1]); Some(m)
    else
      match ParseMagnitude(t)
      case None => None
      case Some(m) => assert IsDecimalDigit(s[|s| - |t|]); Some(m)
  }

  /** The unsigned part of `parseInt`: a `0x`/`0X` prefix selects base 16 (base 10
      otherwise), then the longest run of digits is read and the rest ignored; an
      empty run is `NaN`. */
  function ParseMagnitude(u: string): (r: Option<nat>)
    ensures r.Some? ==> |u| >= 1 && IsDecimalDigit(u[0])
  {
    if |u| >= 2 && u[0] == '0' && (u[1] == 'x' || u[1] == 'X') then
      ParseDigitRun(u[2..], 16)
    else
      var r := ParseDigitRun(u, 10);
      assert r.Some? ==> DigitValue(u[..DigitPrefixLength(u, 10)][0], 10).Some?;
      r
  }

  /** The value of the longest run of base-`radix` digits that starts `v`, if it is not empty. */
  function ParseDigitRun(v: string, radix: nat): (r: Option<nat>)
    ensures r.Some? <==> DigitPrefixLength(v, radix) > 0
  {
    var n := DigitPrefixLength(v, radix);
    if n == 0 then None else Some(DigitsValue(v[..n], radix))
  }

  function DigitChar(d: nat): (c: char)
    requires d < 10
    ensures IsDecimalDigit(c) && DigitValue(c, 10) == Some(d)
  {
    ('0' as int + d) as char
  }

  /** `String(n)` for a non-negative integer: its decimal digits, with no leading zero. */
  function NatToString(n: nat): (s: string)
    ensures |s| >= 1 && AllDigits(s, 10)
    ensures s[0] == '0' ==> s == "0"
    decreases n
  {
    if n < 10 then [DigitChar(n)]
    else NatToString(n / 10) + [DigitChar(n % 10)]
  }

  /** `String(n)` for an integer: a minus sign before the digits of a negative number. */
  function IntToString(n: int): (s: string)
    ensures |s| >= 1
    ensures s[0] == '-' <==> n < 0
  {
    if n < 0 then "-" + NatToString(-n) else NatToString(n)
  }

  lemma {:induction false} DigitsValueOfNatToString(n: nat)
    ensures DigitsValue(NatToString(n), 10) == n
    decreases n
  {
    if n >= 10 {
      var s := NatToString(n);
      assert s[..|s| - 1] == NatToString(n / 10);
      DigitsValueOfNatToString(n / 10);
    }
  }

  /** `parseInt` reads the longest run of decimal digits and ignores what follows it:
      `parseInt("12abc")` is 12 and `parseInt("0100")` is 100. */
  lemma ParseIntReadsDigitPrefix(d: string, rest: string)
    requires |d| >= 1 && AllDigits(d, 10)
    requires rest == [] || !IsDecimalDigit(rest[0])
    requires d == "0" ==> rest == [] || (rest[0] != 'x' && rest[0] != 'X')
    ensures ParseInt(d + rest) == Some(DigitsValue(d, 10))
  {
    var s := d + rest;
    assert s[0] == d[0] && IsDecimalDigit(s[0]);
    ParseIntOfUnsigned(s);
    ParseMagnitudeOfDigitPrefix(d, rest);
  }

  lemma ParseMagnitudeOfDigitPrefix(d: string, rest: string)
    requires |d| >= 1 && AllDigits(d, 10)
    requires rest == [] || !IsDecimalDigit(rest[0])
    requires d == "0" ==> rest == [] || (rest[0] != 'x' && rest[0] != 'X')
    ensures ParseMagnitude(d + rest) == Some(DigitsValue(d, 10))
  {
    var s := d + rest;
    if |d| >= 2 {
      assert s[1] == d[1] && DigitValue(d[1], 10).Some?;
    } else if rest != [] {
      assert s[1] == rest[0];
    }
    DigitPrefixLengthOfPrefix(d, rest, 10);
    assert s[..|d|] == d;
  }

  lemma {:induction false} DigitPrefixLengthOfPrefix(d: string, rest: string, radix: nat)
    requires AllDigits(d, radix)
    requires rest == [] || DigitValue(rest[0], radix).None?
    ensures DigitPrefixLength(d + rest, radix) == |d|
  {
    if d != [] {
      assert (d + rest)[0] == d[0];
      assert (d + rest)[1..] == d[1..] + rest;
      DigitPrefixLengthOfPrefix(d[1..], rest, radix);
    } else {
      assert d + rest == rest;
    }
  }

  /** Text that starts with a digit has no white space or sign for `parseInt` to skip. */
  lemma ParseIntOfUnsigned(s: string)
    requires |s| >= 1 && IsDecimalDigit(s[0])
    ensures ParseInt(s) == ParseMagnitude(s)
  {
    assert !IsJsWhiteSpace(s[0]);
    assert TrimStart(s) == s;
  }

  /** Round trip: `parseInt(String(n)) == n` for every integer `n`. */
  lemma ParseIntOfIntToString(n: int)
    ensures ParseInt(IntToString(n)) == Some(n)
  {
    var m := if n < 0 then -n else n;
    var digits := NatToString(m);
    DigitsValueOfNatToString(m);
    ParseMagnitudeOfDigitPrefix(digits, []);
    assert digits + [] == digits;
    var s := IntToString(n);
    if n < 0 {
      assert s[0] == '-' && s[1..] == digits && !IsJsWhiteSpace(s[0]);
      assert TrimStart(s) == s;
    } else {
      assert IsDecimalDigit(s[0]);
      ParseIntOfUnsigned(s);
    }
  }

  /** Text with no decimal digit in it, such as "" or "abc", is `NaN`. */
  lemma ParseIntWithoutDigits(s: string)
    requires forall i :: 0 <= i < |s| ==> !IsDecimalDigit(s[i])
    ensures ParseInt(s) == None
  {
  }
}
