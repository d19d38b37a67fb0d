/**
  Numbers as text: decimal as it is written and read, and sixteen hexadecimal digits.
 */
module Numerals {
  import opened Options

  function Digit(n: nat): char
    requires n < 10
  {
    '0' + n as char
  }

  predicate IsDigit(c: char) {
    '0' <= c <= '9'
  }

  function Decimal(n: nat): (s: string)
    ensures s != [] && forall i :: 0 <= i < |s| ==> IsDigit(s[i])
  {
    if n < 10 then [Digit(n)] else Decimal(n / 10) + [Digit(n % 10)]
  }

  lemma {:induction false} DecimalInjective(n: nat, m: nat)
    requires Decimal(n) == Decimal(m)
    ensures n == m
  {
    var x, y := Decimal(n), Decimal(m);
    assert x[|x| - 1] == Digit(n % 10) && y[|y| - 1] == Digit(m % 10);
    assert (n < 10 <==> |x| == 1) && (m < 10 <==> |y| == 1);
    if n >= 10 {
      assert x[..|x| - 1] == Decimal(n / 10) && y[..|y| - 1] == Decimal(m / 10);
      DecimalInjective(n / 10, m / 10);
    }
  }

  /** A number is read off a text up to the first character that is no digit. */
  lemma DecimalPrefix(n: nat, m: nat, s: string, t: string)
    requires Decimal(n) + s == Decimal(m) + t && s != [] && t != [] && !IsDigit(s[0]) && !IsDigit(t[0])
    ensures n == m && s == t
  {
    var x, y := Decimal(n), Decimal(m);
    assert (x + s)[|x|] == s[0] && (y + t)[|y|] == t[0];
    assert |x| == |y|;
    assert x == (x + s)[..|x|] && y == (y + t)[..|y|];
    assert s == (x + s)[|x|..] && t == (y + t)[|y|..];
    DecimalInjective(n, m);
  }

  // ---- reading ----

  predicate AllDigits(s: string) {
    forall i :: 0 <= i < |s| ==> IsDigit(s[i])
  }

  function DigitValue(c: char): nat
    requires IsDigit(c)
  {
    c as int - '0' as int
  }

  function Value(s: string): nat
    requires AllDigits(s)
  {
    if s == [] then 0 else Value(s[..|s| - 1]) * 10 + DigitValue(s[|s| - 1])
  }

  /** An unsigned number up to `max`, and nothing else. */
  function ParseUnsigned(s: string, max: nat): Option<nat> {
    if s == [] || !AllDigits(s) || Value(s) > max then None else Some(Value(s))
  }

  lemma {:induction false} DecimalValue(n: nat)
    ensures Value(Decimal(n)) == n
  {
    var s := Decimal(n);
    if n >= 10 {
      DecimalValue(n / 10);
      assert s[..|s| - 1] == Decimal(n / 10);
    } else {
      assert s[..0] == [];
    }
  }

  lemma DecimalReads(n: nat, max: nat)
    requires n <= max
    ensures ParseUnsigned(Decimal(n), max) == Some(n)
  {
    DecimalValue(n);
  }

  const MAX32: nat := 0xFFFF_FFFF
  const MAX64: nat := 0xFFFF_FFFF_FFFF_FFFF

  function HexDigitValue(c: char): (r: int)
    ensures -1 <= r < 16
  {
    if '0' <= c <= '9' then c as int - '0' as int
    else if 'a' <= c <= 'f' then c as int - 'a' as int + 10
    else if 'A' <= c <= 'F' then c as int - 'A' as int + 10
    else -1
  }

  function LowerHex(n: nat): char
    requires n < 16
  {
    if n < 10 then '0' + n as char else 'a' + (n - 10) as char
  }

  predicate AllHex(s: string) {
    forall i :: 0 <= i < |s| ==> HexDigitValue(s[i]) >= 0
  }

  function HexValue(s: string): nat
    requires AllHex(s)
  {
    if s == [] then 0 else HexValue(s[..|s| - 1]) * 16 + HexDigitValue(s[|s| - 1])
  }

  /** Exactly sixteen digits, of either case. */
  function ParseHex64(s: string): Option<nat> {
    if |s| != 16 || !AllHex(s) then None else Some(HexValue(s))
  }

  function Power16(k: nat): nat {
    if k == 0 then 1 else 16 * Power16(k - 1)
  }

  function Hex(n: nat, k: nat): (s: string)
    ensures |s| == k && AllHex(s)
  {
    if k == 0 then "" else Hex(n / 16, k - 1) + [LowerHex(n % 16)]
  }

  function Hex64(n: nat): string {
    Hex(n, 16)
  }

  lemma {:induction false} HexReads(n: nat, k: nat)
    requires n < Power16(k)
    ensures HexValue(Hex(n, k)) == n
  {
    if k > 0 {
      HexReads(n / 16, k - 1);
      var s := Hex(n, k);
      assert s[..|s| - 1] == Hex(n / 16, k - 1);
    }
  }

  lemma Hex64Reads(n: nat)
    requires n <= MAX64
    ensures ParseHex64(Hex64(n)) == Some(n)
  {
    assert Power16(4) == 0x1_0000 && Power16(8) == 0x1_0000_0000 && Power16(12) == 0x1_0000_0000_0000;
    assert Power16(16) == MAX64 + 1;
    HexReads(n, 16);
  }

  lemma {:induction false} HexPlain(n: nat, k: nat, i: nat)
    requires i < k
    ensures IsDigit(Hex(n, k)[i]) || 'a' <= Hex(n, k)[i] <= 'f'
  {
    if i < k - 1 {
      HexPlain(n / 16, k - 1, i);
    }
  }
}
