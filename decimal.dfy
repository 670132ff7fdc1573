/**
 * Decimal and hexadecimal digits: Python's `str(int)`, `f"{n:03d}"` and
 * the four hex digits of a JSON `\uXXXX` escape, with their readers.
 */
module Decimal {

  predicate IsDigit(c: char) { '0' <= c <= '9' }

  predicate AllDigits(s: string) { forall i :: 0 <= i < |s| ==> IsDigit(s[i]) }

  function DigitChar(d: nat): (c: char)
    requires d < 10
    ensures IsDigit(c)
  {
    ('0' as int + d) as char
  }

  function DigitValue(c: char): (d: nat)
    requires IsDigit(c)
    ensures d < 10 && DigitChar(d) == c
  {
    c as int - '0' as int
  }

  /** The decimal digits of n, without leading zeros (Python `str(n)` for n >= 0). */
  function NatToString(n: nat): (s: string)
    ensures |s| >= 1 && AllDigits(s)
    ensures s[0] == '0' <==> n == 0
    ensures n == 0 ==> s == "0"
    decreases n
  {
    if n < 10 then [DigitChar(n)] else NatToString(n / 10) + [DigitChar(n % 10)]
  }

  /** The number a run of decimal digits denotes; leading zeros are allowed. */
  function DigitsValue(s: string): nat
    requires AllDigits(s)
  {
    if s == [] then 0 else DigitsValue(s[..|s| - 1]) * 10 + DigitValue(s[|s| - 1])
  }

  lemma {:induction false} NatToStringRoundTrip(n: nat)
    ensures DigitsValue(NatToString(n)) == n
    decreases n
  {
    if n >= 10 {
      var s := NatToString(n);
      assert s[..|s| - 1] == NatToString(n / 10);
      NatToStringRoundTrip(n / 10);
    }
  }

  /** Python `str(n)` (also `repr(n)` and `json.dumps(n)`) for an int. */
  function IntToString(n: int): (s: string)
    ensures |s| >= 1 && (s[0] == '-' || IsDigit(s[0]))
  {
    if n < 0 then "-" + NatToString(-n) else NatToString(n)
  }

  function Zeros(k: nat): (s: string)
    ensures |s| == k && AllDigits(s)
    ensures forall i :: 0 <= i < k ==> s[i] == '0'
  {
    if k == 0 then "" else Zeros(k - 1) + "0"
  }

  /**
   * Python `f"{n:0{width}d}"`: the sign first, then zeros up to `width`
   * characters in all, then the digits of |n|.
   */
  function ZeroPadded(n: int, width: nat): string
  {
    var digits := NatToString(if n < 0 then -n else n);
    var sign := if n < 0 then "-" else "";
    var fill := if |sign| + |digits| < width then width - |sign| - |digits| else 0;
    sign + Zeros(fill) + digits
  }

  lemma {:induction false} LeadingZerosValue(k: nat, s: string)
    requires AllDigits(s)
    ensures AllDigits(Zeros(k) + s) && DigitsValue(Zeros(k) + s) == DigitsValue(s)
    decreases |s|
  {
    if s == [] {
      ZerosValue(k);
      assert Zeros(k) + s == Zeros(k);
    } else {
      var t := Zeros(k) + s;
      assert t[..|t| - 1] == Zeros(k) + s[..|s| - 1];
      LeadingZerosValue(k, s[..|s| - 1]);
    }
  }

  lemma {:induction false} ZerosValue(k: nat)
    ensures DigitsValue(Zeros(k)) == 0
  {
    if k > 0 {
      var z := Zeros(k);
      assert z[..k - 1] == Zeros(k - 1);
      ZerosValue(k - 1);
    }
  }

  /** A number below 1000 has at most three digits. */
  lemma {:induction false} ShortDigits(n: nat)
    requires n < 1000
    ensures |NatToString(n)| <= 3
  {
    if n >= 10 {
      var m := n / 10;
      assert NatToString(n) == NatToString(m) + [DigitChar(n % 10)];
      if m >= 10 {
        assert NatToString(m) == NatToString(m / 10) + [DigitChar(m % 10)];
      }
    }
  }

  /** Zero padding keeps the number: the padded text is all digits and reads back to n. */
  lemma {:induction false} ZeroPaddedValue(n: nat, width: nat)
    ensures AllDigits(ZeroPadded(n, width)) && DigitsValue(ZeroPadded(n, width)) == n
    ensures |ZeroPadded(n, width)| == (if |NatToString(n)| < width then width else |NatToString(n)|)
  {
    var d := NatToString(n);
    var fill := if |d| < width then width - |d| else 0;
    assert ZeroPadded(n, width) == Zeros(fill) + d;
    LeadingZerosValue(fill, d);
    NatToStringRoundTrip(n);
  }

  /** Python's `'0123456789abcdef'[d]`: the lower-case hex digit of d. */
  function HexChar(d: nat): (c: char)
    requires d < 16
  {
    if d < 10 then DigitChar(d) else ('a' as int + (d - 10)) as char
  }

  /** A hex digit in either case, as the JSON decoder reads it. */
  function HexValue(c: char): (r: int)
    ensures -1 <= r < 16
    ensures r >= 0 <==> IsDigit(c) || 'a' <= c <= 'f' || 'A' <= c <= 'F'
  {
    if IsDigit(c) then DigitValue(c)
    else if 'a' <= c <= 'f' then c as int - 'a' as int + 10
    else if 'A' <= c <= 'F' then c as int - 'A' as int + 10
    else -1
  }

  lemma {:induction false} HexCharValue(d: nat)
    requires d < 16
    ensures HexValue(HexChar(d)) == d
  {
  }

  /** `'{0:04x}'.format(n)`: exactly four lower-case hex digits. */
  function Hex4(n: nat): (s: string)
    requires n < 0x10000
    ensures |s| == 4
  {
    [HexChar(n / 0x1000), HexChar(n / 0x100 % 0x10), HexChar(n / 0x10 % 0x10), HexChar(n % 0x10)]
  }

  /** The value of four hex digits, or -1 when one of them is not a hex digit. */
  function ReadHex4(s: string): (r: int)
    requires |s| == 4
    ensures -1 <= r < 0x10000
  {
    var a, b, c, d := HexValue(s[0]), HexValue(s[1]), HexValue(s[2]), HexValue(s[3]);
    if a < 0 || b < 0 || c < 0 || d < 0 then -1
    else ((a * 0x10 + b) * 0x10 + c) * 0x10 + d
  }

  lemma {:induction false} Hex4RoundTrip(n: nat)
    requires n < 0x10000
    ensures ReadHex4(Hex4(n)) == n
  {
    var a, b, c, d := n / 0x1000, n / 0x100 % 0x10, n / 0x10 % 0x10, n % 0x10;
    var s := Hex4(n);
    assert s == [HexChar(a), HexChar(b), HexChar(c), HexChar(d)];
    HexCharValue(a);
    HexCharValue(b);
    HexCharValue(c);
    HexCharValue(d);
    HexDigits(n);
    assert ReadHex4(s) == ((a * 0x10 + b) * 0x10 + c) * 0x10 + d;
  }

  /** A number below 0x10000 is the sum of its four hex digits, place by place. */
  lemma {:induction false} HexDigits(n: nat)
    requires n < 0x10000
    ensures ((n / 0x1000 * 0x10 + n / 0x100 % 0x10) * 0x10 + n / 0x10 % 0x10) * 0x10 + n % 0x10 == n
  {
    assert n / 0x100 == n / 0x1000 * 0x10 + n / 0x100 % 0x10;
    assert n / 0x10 == n / 0x100 * 0x10 + n / 0x10 % 0x10;
    assert n == n / 0x10 * 0x10 + n % 0x10;
  }
}
