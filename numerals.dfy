/**
 * Decimal numerals: the shortest decimal rendering used by Rust's `format!("{}")`
 * and JavaScript's `toString()`, the digit-string value, and Rust's `u64::from_str`.
 */
module Numerals {
  import opened Wrappers

  type Byte = b: int | 0 <= b < 256

  const U64_LIMIT: nat := 0x1_0000_0000_0000_0000

  /** The values of Rust's `u64`. */
  type U64 = n: nat | n < U64_LIMIT

  predicate IsDigit(c: char) {
    '0' <= c <= '9'
  }

  predicate AllDigits(s: string) {
    forall i :: 0 <= i < |s| ==> IsDigit(s[i])
  }

  function DigitChar(d: nat): (c: char)
    requires d < 10
    ensures IsDigit(c) && c as int - '0' as int == d
  {
    ('0' as int + d) as char
  }

  function DigitValue(c: char): (d: nat)
    requires IsDigit(c)
    ensures d < 10
  {
    c as int - '0' as int
  }

  /** The value of a string of decimal digits, most significant first. */
  function DigitsValue(s: string): nat
    requires AllDigits(s)
  {
    if s == [] then 0 else DigitsValue(s[..|s| - 1]) * 10 + DigitValue(s[|s| - 1])
  }

  /** The shortest decimal numeral of `n` (no sign, no leading zeros). */
  function Decimal(n: nat): (s: string)
    ensures 1 <= |s| && AllDigits(s)
    ensures s[0] == '0' ==> n == 0 && s == "0"
  {
    if n < 10 then [DigitChar(n)] else Decimal(n / 10) + [DigitChar(n % 10)]
  }

  /** Reading the numeral back gives the number. */
  lemma {:induction false} DecimalValue(n: nat)
    ensures DigitsValue(Decimal(n)) == n
  {
    if n >= 10 {
      var s := Decimal(n);
      assert s[..|s| - 1] == Decimal(n / 10);
      DecimalValue(n / 10);
    }
  }

  /** Distinct numbers have distinct numerals. */
  lemma DecimalInjective(a: nat, b: nat)
    requires Decimal(a) == Decimal(b)
    ensures a == b
  {
    DecimalValue(a);
    DecimalValue(b);
  }

  /**
   * Rust's `<u64 as FromStr>::from_str`: an optional `+`, then one or more ASCII
   * digits (leading zeros allowed) whose value fits in 64 bits.
   */
  function ParseU64(s: string): (r: Option<U64>)
    ensures r.Some? ==> exists d :: (s == d || s == "+" + d) && d != [] && AllDigits(d) && r.value == DigitsValue(d)
  {
    var digits := if |s| > 0 && s[0] == '+' then s[1..] else s;
    if digits == [] || !AllDigits(digits) then None
    else if DigitsValue(digits) < U64_LIMIT then
      assert s == digits || s == "+" + digits;
      Some(DigitsValue(digits))
    else None
  }

  /**
   * Conversely, `parse` accepts every non-empty digit string whose value fits, with or
   * without a leading `+` and with any number of leading zeros.
   */
  lemma ParseDigits(digits: string)
    requires digits != [] && AllDigits(digits) && DigitsValue(digits) < U64_LIMIT
    ensures ParseU64(digits) == Some(DigitsValue(digits))
    ensures ParseU64("+" + digits) == Some(DigitsValue(digits))
  {
    var signed := "+" + digits;
    assert signed[1..] == digits;
  }

  /** Every 64-bit number survives rendering and parsing. */
  lemma ParseDecimal(n: U64)
    ensures ParseU64(Decimal(n)) == Some(n)
  {
    DecimalValue(n);
  }

  predicate IsHexDigit(c: char) {
    IsDigit(c) || 'a' <= c <= 'f' || 'A' <= c <= 'F'
  }

  /** The value of a hexadecimal digit of either case. */
  function HexValue(c: char): (d: nat)
    requires IsHexDigit(c)
    ensures d < 16
  {
    if IsDigit(c) then DigitValue(c)
    else if 'a' <= c <= 'f' then c as int - 'a' as int + 10
    else c as int - 'A' as int + 10
  }

  /**
   * The hexadecimal digit of `d`: lower case as `Number.prototype.toString(16)` writes it,
   * upper case as percent-escapes write it.
   */
  function HexDigit(d: nat, upper: bool): (c: char)
    requires d < 16
    ensures IsHexDigit(c) && HexValue(c) == d
    ensures !upper ==> IsDigit(c) || 'a' <= c <= 'f'
    ensures upper ==> IsDigit(c) || 'A' <= c <= 'F'
  {
    if d < 10 then DigitChar(d) else ((if upper then 'A' else 'a') as int + (d - 10)) as char
  }
}
