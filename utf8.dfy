/**
 * UTF-8 as Rust's `String::from_utf8` and ECMAScript's URI functions use it:
 * the encoding of a Unicode scalar value and the strict decoder that rejects
 * overlong forms, surrogates, values above U+10FFFF and truncated sequences.
 */
module Utf8 {
  import opened Wrappers
  import opened Numerals

  predicate IsContinuation(b: Byte) {
    0x80 <= b < 0xC0
  }

  /** The UTF-8 bytes of one scalar value. */
  function EncodeChar(c: char): (bs: seq<Byte>)
    ensures 1 <= |bs| <= 4
    ensures (|bs| == 1) == (c as int < 0x80)
    ensures |bs| == 1 ==> bs[0] == c as int
    ensures forall i :: 1 <= i < |bs| ==> IsContinuation(bs[i])
  {
    var cp := c as int;
    if cp < 0x80 then [cp]
    else if cp < 0x800 then [0xC0 + cp / 64, 0x80 + cp % 64]
    else if cp < 0x10000 then [0xE0 + cp / 4096, 0x80 + (cp / 64) % 64, 0x80 + cp % 64]
    else [0xF0 + cp / 262144, 0x80 + (cp / 4096) % 64, 0x80 + (cp / 64) % 64, 0x80 + cp % 64]
  }

  function Encode(s: string): (bs: seq<Byte>)
    ensures |s| <= |bs|
  {
    if s == [] then [] else EncodeChar(s[0]) + Encode(s[1..])
  }

  /** How many bytes the sequence introduced by lead byte `b` has; 0 if `b` cannot start one. */
  function SequenceLength(b: Byte): (n: nat)
    ensures n <= 4
  {
    if b < 0x80 then 1
    else if 0xC2 <= b < 0xE0 then 2
    else if 0xE0 <= b < 0xF0 then 3
    else if 0xF0 <= b < 0xF5 then 4
    else 0
  }

  predicate IsScalar(cp: int) {
    0 <= cp < 0xD800 || 0xE000 <= cp < 0x11_0000
  }

  /**
   * The scalar value encoded by exactly the bytes `bs`, if they are one
   * well-formed sequence.
   */
  function DecodeSequence(bs: seq<Byte>): (r: Option<char>)
    ensures r.Some? ==> 1 <= |bs| <= 4 && SequenceLength(bs[0]) == |bs|
  {
    if |bs| == 0 || SequenceLength(bs[0]) != |bs| then None
    else if exists i :: 1 <= i < |bs| && !IsContinuation(bs[i]) then None
    else if |bs| == 1 then Some(bs[0] as char)
    else if |bs| == 2 then Some(((bs[0] as int - 0xC0) * 64 + (bs[1] as int - 0x80)) as char)
    else if |bs| == 3 then
      var cp := (bs[0] as int - 0xE0) * 4096 + (bs[1] as int - 0x80) * 64 + (bs[2] as int - 0x80);
      if 0x800 <= cp && IsScalar(cp) then Some(cp as char) else None
    else
      var cp := (bs[0] as int - 0xF0) * 262144 + (bs[1] as int - 0x80) * 4096 + (bs[2] as int - 0x80) * 64 + (bs[3] as int - 0x80);
      if 0x1_0000 <= cp && IsScalar(cp) then Some(cp as char) else None
  }

  /** `std::str::from_utf8`: the text, or `None` when the bytes are not valid UTF-8. */
  function Decode(bs: seq<Byte>): (r: Option<string>)
    decreases |bs|
  {
    if bs == [] then Some([])
    else
      var n := SequenceLength(bs[0]);
      if n == 0 || n > |bs| then None
      else match DecodeSequence(bs[..n])
        case None => None
        case Some(c) =>
          match Decode(bs[n..])
          case None => None
          case Some(rest) => Some([c] + rest)
  }

  /** The lead byte of an encoding announces its length. */
  lemma EncodeCharLead(c: char)
    ensures SequenceLength(EncodeChar(c)[0]) == |EncodeChar(c)|
  {
  }

  /** Each scalar value's encoding decodes to it. */
  lemma EncodeCharDecodes(c: char)
    ensures DecodeSequence(EncodeChar(c)) == Some(c)
  {
    var cp := c as int;
    var bs := EncodeChar(c);
    if cp < 0x80 {
    } else if cp < 0x800 {
      assert (bs[0] as int - 0xC0) * 64 + (bs[1] as int - 0x80) == cp;
    } else if cp < 0x10000 {
      var q := cp / 64;
      assert cp == q * 64 + cp % 64;
      assert q == (q / 64) * 64 + q % 64;
      assert cp / 4096 == q / 64;
      assert (bs[0] as int - 0xE0) * 4096 + (bs[1] as int - 0x80) * 64 + (bs[2] as int - 0x80) == cp;
    } else {
      var q := cp / 64;
      var q2 := q / 64;
      assert cp == q * 64 + cp % 64;
      assert q == q2 * 64 + q % 64;
      assert q2 == (q2 / 64) * 64 + q2 % 64;
      assert cp / 4096 == q2;
      assert cp / 262144 == q2 / 64;
      assert (bs[0] as int - 0xF0) * 262144 + (bs[1] as int - 0x80) * 4096 + (bs[2] as int - 0x80) * 64 + (bs[3] as int - 0x80) == cp;
    }
  }

  /** Decoding the encoding of a text gives the text back. */
  lemma {:induction false} DecodeEncode(s: string)
    ensures Decode(Encode(s)) == Some(s)
  {
    if s != [] {
      var e := EncodeChar(s[0]);
      var bs := Encode(s);
      assert bs == e + Encode(s[1..]);
      EncodeCharLead(s[0]);
      assert bs[..|e|] == e;
      assert bs[|e|..] == Encode(s[1..]);
      EncodeCharDecodes(s[0]);
      DecodeEncode(s[1..]);
      assert [s[0]] + s[1..] == s;
    }
  }

  lemma DivMod64(a: nat, r: nat)
    requires r < 64
    ensures (a * 64 + r) / 64 == a && (a * 64 + r) % 64 == r
  {
  }

  /** A well-formed sequence is the encoding of the scalar value it decodes to. */
  lemma DecodeSequenceEncodes(bs: seq<Byte>, c: char)
    requires DecodeSequence(bs) == Some(c)
    ensures EncodeChar(c) == bs
  {
    assert forall i :: 1 <= i < |bs| ==> IsContinuation(bs[i]);
    var cp := c as int;
    if |bs| == 2 {
      var x, y := bs[0] as int - 0xC0, bs[1] as int - 0x80;
      assert cp == x * 64 + y;
      DivMod64(x, y);
    } else if |bs| == 3 {
      var x, y, z := bs[0] as int - 0xE0, bs[1] as int - 0x80, bs[2] as int - 0x80;
      assert cp == (x * 64 + y) * 64 + z;
      DivMod64(x * 64 + y, z);
      DivMod64(x, y);
      assert cp / 4096 == x by {
        assert cp / 4096 == (cp / 64) / 64;
      }
    } else if |bs| == 4 {
      var x, y, z, w := bs[0] as int - 0xF0, bs[1] as int - 0x80, bs[2] as int - 0x80, bs[3] as int - 0x80;
      assert cp == ((x * 64 + y) * 64 + z) * 64 + w;
      DivMod64((x * 64 + y) * 64 + z, w);
      DivMod64(x * 64 + y, z);
      DivMod64(x, y);
      assert cp / 4096 == x * 64 + y by {
        assert cp / 4096 == (cp / 64) / 64;
      }
      assert cp / 262144 == x by {
        assert cp / 262144 == (cp / 4096) / 64;
      }
    }
  }

  /**
   * The decoder accepts nothing but encodings: whatever it accepts is the encoding of the
   * text it returns. With `DecodeEncode`, it accepts exactly the encodings of texts.
   */
  lemma {:induction false} EncodeDecode(bs: seq<Byte>)
    ensures Decode(bs).Some? ==> Encode(Decode(bs).value) == bs
    decreases |bs|
  {
    if bs != [] && Decode(bs).Some? {
      var n := SequenceLength(bs[0]);
      var c := DecodeSequence(bs[..n]).value;
      var rest := Decode(bs[n..]).value;
      assert Decode(bs).value == [c] + rest;
      DecodeSequenceEncodes(bs[..n], c);
      EncodeDecode(bs[n..]);
      assert ([c] + rest)[1..] == rest;
      assert bs[..n] + bs[n..] == bs;
    }
  }
}
