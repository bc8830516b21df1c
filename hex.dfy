/**
 * `bytesToHex`, defined identically in src/frontend/src/index.js,
 * src/greet_frontend/src/index.js and src/cannister_frontend/src/App.js:
 * `Array.from(bytes, b => b.toString(16).padStart(2, '0')).join('')`.
 */
module Hex {
  import opened Wrappers
  import opened Numerals

  /** `n.toString(16)`: the shortest lower-case hexadecimal numeral. */
  function ToStringRadix16(n: nat): (s: string)
    ensures 1 <= |s|
  {
    if n < 16 then [HexDigit(n, false)] else ToStringRadix16(n / 16) + [HexDigit(n % 16, false)]
  }

  /** `s.padStart(width, fill)` for a one-character `fill`. */
  function PadStart(s: string, width: nat, fill: char): (r: string)
    decreases width - |s|
  {
    if |s| >= width then s else PadStart([fill] + s, width, fill)
  }

  /** One byte as `b.toString(16).padStart(2, '0')`. */
  function ByteToHex(b: Byte): string {
    PadStart(ToStringRadix16(b), 2, '0')
  }

  predicate IsLowerHex(c: char) {
    IsDigit(c) || 'a' <= c <= 'f'
  }

  /** `bytesToHex(bytes)`. */
  function BytesToHex(bs: seq<Byte>): string {
    if bs == [] then [] else ByteToHex(bs[0]) + BytesToHex(bs[1..])
  }

  /** Each byte becomes exactly two lower-case digits, the zero-padded high nibble first. */
  lemma ByteToHexDigits(b: Byte)
    ensures ByteToHex(b) == [HexDigit(b / 16, false), HexDigit(b % 16, false)]
  {
    if b < 16 {
      assert ToStringRadix16(b) == [HexDigit(b, false)];
      assert b / 16 == 0 && b % 16 == b && HexDigit(0, false) == '0';
      assert PadStart([HexDigit(b, false)], 2, '0') == PadStart(['0', HexDigit(b, false)], 2, '0');
    } else {
      assert ToStringRadix16(b / 16) == [HexDigit(b / 16, false)];
    }
  }

  /**
   * The output has two characters per byte, every character a lower-case hex digit,
   * and characters `2i` and `2i + 1` are the digits of byte `i`.
   */
  lemma {:induction false} BytesToHexShape(bs: seq<Byte>)
    ensures |BytesToHex(bs)| == 2 * |bs|
    ensures forall i :: 0 <= i < |bs| ==>
      BytesToHex(bs)[2 * i] == HexDigit(bs[i] / 16, false) && BytesToHex(bs)[2 * i + 1] == HexDigit(bs[i] % 16, false)
    ensures forall k :: 0 <= k < |BytesToHex(bs)| ==> IsLowerHex(BytesToHex(bs)[k])
  {
    if bs != [] {
      ByteToHexDigits(bs[0]);
      BytesToHexShape(bs[1..]);
      var h := BytesToHex(bs);
      assert h == ByteToHex(bs[0]) + BytesToHex(bs[1..]);
      forall i | 1 <= i < |bs|
        ensures h[2 * i] == HexDigit(bs[i] / 16, false) && h[2 * i + 1] == HexDigit(bs[i] % 16, false)
      {
        assert bs[1..][i - 1] == bs[i];
      }
    }
  }

  /**
   * The inverse reading: pairs of hexadecimal digits of either case; `None` on an odd length
   * or a character that is not a hex digit.
   */
  function HexToBytes(s: string): (r: Option<seq<Byte>>)
    ensures r.Some? ==> 2 * |r.value| == |s|
  {
    if s == [] then Some([])
    else if |s| == 1 || !IsHexDigit(s[0]) || !IsHexDigit(s[1]) then None
    else match HexToBytes(s[2..])
      case None => None
      case Some(rest) => Some([HexValue(s[0]) * 16 + HexValue(s[1])] + rest)
  }

  /** Reading the hex text back gives the bytes. */
  lemma {:induction false} HexRoundTrip(bs: seq<Byte>)
    ensures HexToBytes(BytesToHex(bs)) == Some(bs)
  {
    if bs != [] {
      ByteToHexDigits(bs[0]);
      var h := BytesToHex(bs);
      assert h == ByteToHex(bs[0]) + BytesToHex(bs[1..]);
      assert h[2..] == BytesToHex(bs[1..]);
      HexRoundTrip(bs[1..]);
      assert [bs[0]] + bs[1..] == bs;
    }
  }

  /** Distinct byte strings have distinct hex texts. */
  lemma BytesToHexInjective(a: seq<Byte>, b: seq<Byte>)
    requires BytesToHex(a) == BytesToHex(b)
    ensures a == b
  {
    HexRoundTrip(a);
    HexRoundTrip(b);
  }
}
