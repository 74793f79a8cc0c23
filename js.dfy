/** The few JavaScript value semantics the modelled code relies on: optional values,
    string truthiness, `parseInt(s, 10)`, integer `toString()` and `Math.ceil` of a division. */
module Js {

  datatype Option<+T> = None | Some(value: T)

  /** A JavaScript number as the modelled code produces it: NaN or an integer. */
  datatype JsNumber = NaN | Int(value: int)

  /** `s || fallback` on an optional string: a missing or empty string is falsy. */
  function OrDefault(s: Option<string>, fallback: string): (r: string)
    ensures Truthy(s) ==> r == s.value
    ensures !Truthy(s) ==> r == fallback
  {
    if s.Some? && s.value != "" then s.value else fallback
  }

  predicate Truthy(s: Option<string>) {
    s.Some? && s.value != ""
  }

  /** `x = fallback` in a destructuring pattern: only a missing value takes the default. */
  function Defaulted(s: Option<string>, fallback: string): string {
    if s.Some? then s.value else fallback
  }

  function Get(headers: map<string, string>, name: string): Option<string> {
    if name in headers then Some(headers[name]) else None
  }

  predicate StartsWith(s: string, prefix: string) {
    |prefix| <= |s| && s[..|prefix|] == prefix
  }

  // ---------------------------------------------------------------------------
  // parseInt(s, 10)

  /** WhiteSpace and LineTerminator code points of ECMAScript, which parseInt skips. */
  predicate IsJsWhiteSpace(c: char) {
    c in {'\U{0009}', '\U{000A}', '\U{000B}', '\U{000C}', '\U{000D}', '\U{0020}', '\U{00A0}',
          '\U{1680}', '\U{2000}', '\U{2001}', '\U{2002}', '\U{2003}', '\U{2004}', '\U{2005}',
          '\U{2006}', '\U{2007}', '\U{2008}', '\U{2009}', '\U{200A}', '\U{2028}', '\U{2029}',
          '\U{202F}', '\U{205F}', '\U{3000}', '\U{FEFF}'}
  }

  predicate IsDigit(c: char) {
    '0' <= c <= '9'
  }

  predicate AllDigits(s: string) {
    forall i :: 0 <= i < |s| ==> IsDigit(s[i])
  }

  /** The string with its leading white space removed. */
  function TrimStart(s: string): (r: string)
    ensures |r| <= |s| && r == s[|s| - |r|..]
    ensures forall i :: 0 <= i < |s| - |r| ==> IsJsWhiteSpace(s[i])
    ensures r == "" || !IsJsWhiteSpace(r[0])
  {
    if s != "" && IsJsWhiteSpace(s[0]) then TrimStart(s[1..]) else s
  }

  /** The longest prefix of `s` made of decimal digits. */
  function DigitPrefix(s: string): (r: string)
    ensures |r| <= |s| && r == s[..|r|]
    ensures AllDigits(r)
    ensures |r| == |s| || !IsDigit(s[|r|])
  {
    if s != "" && IsDigit(s[0]) then [s[0]] + DigitPrefix(s[1..]) else ""
  }

  function DigitValue(c: char): nat
    requires IsDigit(c)
  {
    c as int - '0' as int
  }

  function DigitChar(d: nat): (c: char)
    requires d < 10
    ensures IsDigit(c) && DigitValue(c) == d
  {
    ('0' as int + d) as char
  }

  /** The value of a string of decimal digits, most significant first. */
  function DigitsValue(ds: string): nat
    requires AllDigits(ds)
  {
    if ds == "" then 0 else DigitsValue(ds[..|ds| - 1]) * 10 + DigitValue(ds[|ds| - 1])
  }

  /** `parseInt(s, 10)`: skip leading white space, read an optional sign, then the longest run
      of decimal digits; NaN when there is none. */
  function ParseInt(s: string): JsNumber {
    var t := TrimStart(s);
    var digits := DigitPrefix(Unsigned(t));
    if digits == "" then NaN
    else if t != "" && t[0] == '-' then Int(-(DigitsValue(digits) as int))
    else Int(DigitsValue(digits))
  }

  function Unsigned(t: string): string {
    if t != "" && (t[0] == '-' || t[0] == '+') then t[1..] else t
  }

  predicate IsHexDigit(c: char) {
    IsDigit(c) || 'a' <= c <= 'f' || 'A' <= c <= 'F'
  }

  function HexDigitValue(c: char): (v: nat)
    requires IsHexDigit(c)
    ensures v < 16
  {
    if IsDigit(c) then DigitValue(c)
    else if 'a' <= c <= 'f' then c as int - 'a' as int + 10
    else c as int - 'A' as int + 10
  }

  /** The longest prefix of `s` made of hexadecimal digits. */
  function HexPrefix(s: string): (r: string)
    ensures |r| <= |s| && r == s[..|r|]
    ensures forall i :: 0 <= i < |r| ==> IsHexDigit(r[i])
    ensures |r| == |s| || !IsHexDigit(s[|r|])
  {
    if s != "" && IsHexDigit(s[0]) then [s[0]] + HexPrefix(s[1..]) else ""
  }

  function HexValue(ds: string): nat
    requires forall i :: 0 <= i < |ds| ==> IsHexDigit(ds[i])
  {
    if ds == "" then 0 else HexValue(ds[..|ds| - 1]) * 16 + HexDigitValue(ds[|ds| - 1])
  }

  predicate HasHexPrefix(u: string) {
    |u| >= 2 && u[0] == '0' && (u[1] == 'x' || u[1] == 'X')
  }

  /** `parseInt(s)` with no radix: as `parseInt(s, 10)`, except that after the sign a "0x" or
      "0X" prefix switches to hexadecimal. */
  function ParseIntAutoRadix(s: string): (r: JsNumber)
    ensures !HasHexPrefix(Unsigned(TrimStart(s))) ==> r == ParseInt(s)
  {
    var t := TrimStart(s);
    var u := Unsigned(t);
    if HasHexPrefix(u) then
      var digits := HexPrefix(u[2..]);
      if digits == "" then NaN
      else if t[0] == '-' then Int(-(HexValue(digits) as int))
      else Int(HexValue(digits))
    else ParseInt(s)
  }

  /** Without a radix parseInt still reads back what toString writes. */
  lemma ParseIntAutoRadixOfIntToString(n: int)
    ensures ParseIntAutoRadix(IntToString(n)) == Int(n)
  {
    var digits := NatToString(if n < 0 then -n else n);
    var s := IntToString(n);
    assert TrimStart(s) == s by {
      assert !IsJsWhiteSpace(s[0]);
    }
    if n < 0 {
      assert Unsigned(s) == digits by {
        assert s[1..] == digits;
      }
    } else {
      assert Unsigned(s) == digits by {
        assert s[0] != '-' && s[0] != '+';
      }
    }
    assert !HasHexPrefix(digits) by {
      assert |digits| >= 2 ==> IsDigit(digits[1]);
    }
    ParseIntOfIntToString(n);
  }

  // ---------------------------------------------------------------------------
  // Number.prototype.toString() on integers

  function NatToString(n: nat): (s: string)
    ensures s != "" && AllDigits(s) && DigitsValue(s) == n
  {
    if n < 10 then [DigitChar(n)]
    else
      var s := NatToString(n / 10) + [DigitChar(n % 10)];
      assert s[..|s| - 1] == NatToString(n / 10);
      s
  }

  function IntToString(n: int): (s: string)
    ensures s != "" && (n < 0 <==> s[0] == '-')
  {
    if n < 0 then "-" + NatToString(-n) else NatToString(n)
  }

  /** parseInt reads back what toString writes. */
  lemma ParseIntOfIntToString(n: int)
    ensures ParseInt(IntToString(n)) == Int(n)
  {
    var digits := NatToString(if n < 0 then -n else n);
    var s := IntToString(n);
    assert TrimStart(s) == s by {
      assert !IsJsWhiteSpace(s[0]);
    }
    if n < 0 {
      assert Unsigned(s) == digits by {
        assert s[1..] == digits;
      }
    } else {
      assert Unsigned(s) == digits by {
        assert s[0] != '-' && s[0] != '+';
      }
    }
    DigitPrefixOfDigits(digits);
  }

  /** A string of digits is its own longest digit prefix. */
  lemma {:induction false} DigitPrefixOfDigits(ds: string)
    requires AllDigits(ds)
    ensures DigitPrefix(ds) == ds
  {
    if ds != "" {
      assert AllDigits(ds[1..]) by {
        assert forall i :: 0 <= i < |ds| - 1 ==> ds[1..][i] == ds[i + 1];
      }
      DigitPrefixOfDigits(ds[1..]);
      assert [ds[0]] + ds[1..] == ds;
    }
  }

  // ---------------------------------------------------------------------------
  // Math.ceil(n / d)

  /** `Math.ceil(n / d)` for a count `n`, as it appears in a JSON body: None when the quotient
      is NaN or infinite (d is NaN or 0), which JSON.stringify writes as null. */
  function CeilDiv(n: nat, d: JsNumber): (r: Option<int>)
    ensures r.Some? <==> d.Int? && d.value != 0
    ensures r.Some? && d.value > 0 ==> (r.value - 1) * d.value < n <= r.value * d.value
    ensures r.Some? && d.value < 0 ==> r.value * d.value <= n < (r.value - 1) * d.value
  {
    if d.NaN? || d.value == 0 then None
    else if d.value > 0 then Some((n + d.value - 1) / d.value)
    else Some(-(n / -d.value))
  }
}
