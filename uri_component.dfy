/**
 * ECMAScript's `encodeURIComponent` and `decodeURIComponent` (sections 19.2.6.4 and
 * 19.2.6.2 of ECMA-262, with the Encode and Decode operations of 19.2.6.5 and 19.2.6.6),
 * over strings of Unicode scalar values.
 */
module UriComponent {
  import opened Wrappers
  import opened Numerals
  import Utf8

  /** The characters `encodeURIComponent` leaves as they are. */
  predicate IsUnreserved(c: char) {
    'a' <= c <= 'z' || 'A' <= c <= 'Z' || IsDigit(c)
    || c == '-' || c == '_' || c == '.' || c == '!' || c == '~' || c == '*' || c == '\'' || c == '(' || c == ')'
  }

  /** `%XY` with upper-case hexadecimal digits. */
  function Escape(b: Byte): (s: string)
    ensures |s| == 3 && s[0] == '%' && IsHexDigit(s[1]) && IsHexDigit(s[2])
    ensures HexValue(s[1]) * 16 + HexValue(s[2]) == b
  {
    ['%', HexDigit(b / 16, true), HexDigit(b % 16, true)]
  }

  function EscapeAll(bs: seq<Byte>): (s: string)
    ensures |s| == 3 * |bs|
    ensures forall i :: 0 <= i < |s| ==> IsUnreserved(s[i]) || s[i] == '%'
  {
    if bs == [] then [] else Escape(bs[0]) + EscapeAll(bs[1..])
  }

  function EncodeChar(c: char): (s: string)
    ensures forall i :: 0 <= i < |s| ==> IsUnreserved(s[i]) || s[i] == '%'
  {
    if IsUnreserved(c) then [c] else EscapeAll(Utf8.EncodeChar(c))
  }

  /** `encodeURIComponent(s)`. */
  function Encode(s: string): (r: string)
    ensures forall i :: 0 <= i < |r| ==> IsUnreserved(r[i]) || r[i] == '%'
    ensures s != [] ==> r != []
  {
    if s == [] then [] else EncodeChar(s[0]) + Encode(s[1..])
  }

  /** The byte written by a `%XY` escape at the start of `s`. */
  function ReadEscape(s: string): Option<Byte> {
    if |s| >= 3 && s[0] == '%' && IsHexDigit(s[1]) && IsHexDigit(s[2])
    then Some(HexValue(s[1]) * 16 + HexValue(s[2]))
    else None
  }

  /** The number of leading one bits of `b`. */
  function LeadingOnes(b: Byte): nat {
    if b < 0x80 then 0 else if b < 0xC0 then 1 else if b < 0xE0 then 2
    else if b < 0xF0 then 3 else if b < 0xF8 then 4 else 5
  }

  /** `count` escapes at the start of `s`, each of a continuation byte. */
  function ReadContinuations(s: string, count: nat): (r: Option<seq<Byte>>)
    ensures r.Some? ==> |r.value| == count && 3 * count <= |s|
  {
    if count == 0 then Some([])
    else match ReadEscape(s)
      case None => None
      case Some(b) =>
        if !Utf8.IsContinuation(b) then None
        else match ReadContinuations(s[3..], count - 1)
          case None => None
          case Some(more) => Some([b] + more)
  }

  /** `decodeURIComponent(s)`; `None` where the built-in throws a URIError. */
  function Decode(s: string): (r: Option<string>)
    decreases |s|
  {
    if s == [] then Some([])
    else if s[0] != '%' then
      match Decode(s[1..])
      case None => None
      case Some(rest) => Some([s[0]] + rest)
    else match ReadEscape(s)
      case None => None
      case Some(b) =>
        if b < 0x80 then
          match Decode(s[3..])
          case None => None
          case Some(rest) => Some([b as char] + rest)
        else
          var n := LeadingOnes(b);
          if n == 1 || n > 4 then None
          else match ReadContinuations(s[3..], n - 1)
            case None => None
            case Some(more) =>
              match Utf8.DecodeSequence([b] + more)
              case None => None
              case Some(c) =>
                match Decode(s[3 * n..])
                case None => None
                case Some(rest) => Some([c] + rest)
  }

  lemma {:induction false} ReadEscapedContinuations(cs: seq<Byte>, rest: string)
    requires forall i :: 0 <= i < |cs| ==> Utf8.IsContinuation(cs[i])
    ensures ReadContinuations(EscapeAll(cs) + rest, |cs|) == Some(cs)
  {
    if cs != [] {
      var s := EscapeAll(cs) + rest;
      var tail := EscapeAll(cs[1..]) + rest;
      assert EscapeAll(cs) == Escape(cs[0]) + EscapeAll(cs[1..]);
      assert s == Escape(cs[0]) + tail;
      assert ReadEscape(s) == Some(cs[0]);
      assert s[3..] == tail;
      ReadEscapedContinuations(cs[1..], rest);
      assert [cs[0]] + cs[1..] == cs;
    }
  }

  /** The escapes of a well-formed multi-byte sequence decode to its character. */
  lemma DecodeEscapedSequence(bs: seq<Byte>, c: char, rest: string)
    requires 2 <= |bs| && Utf8.SequenceLength(bs[0]) == |bs|
    requires forall i :: 1 <= i < |bs| ==> Utf8.IsContinuation(bs[i])
    requires Utf8.DecodeSequence(bs) == Some(c)
    ensures Decode(EscapeAll(bs) + rest) == match Decode(rest) case None => None case Some(t) => Some([c] + t)
  {
    var s := EscapeAll(bs) + rest;
    assert EscapeAll(bs) == Escape(bs[0]) + EscapeAll(bs[1..]);
    assert s == Escape(bs[0]) + (EscapeAll(bs[1..]) + rest);
    assert ReadEscape(s) == Some(bs[0]);
    assert LeadingOnes(bs[0]) == |bs|;
    assert s[3..] == EscapeAll(bs[1..]) + rest;
    ReadEscapedContinuations(bs[1..], rest);
    assert [bs[0]] + bs[1..] == bs;
    assert s[3 * |bs|..] == rest;
  }

  /** Decoding consumes exactly the encoding of one character. */
  lemma DecodeEncodeChar(c: char, rest: string)
    ensures Decode(EncodeChar(c) + rest) == match Decode(rest) case None => None case Some(t) => Some([c] + t)
  {
    var s := EncodeChar(c) + rest;
    if IsUnreserved(c) {
      assert s[1..] == rest;
    } else {
      var bs := Utf8.EncodeChar(c);
      if |bs| == 1 {
        assert s == Escape(bs[0]) + rest;
        assert s[3..] == rest;
      } else {
        Utf8.EncodeCharLead(c);
        Utf8.EncodeCharDecodes(c);
        DecodeEscapedSequence(bs, c, rest);
      }
    }
  }

  /** `decodeURIComponent(encodeURIComponent(s)) === s`. */
  lemma {:induction false} DecodeEncode(s: string)
    ensures Decode(Encode(s)) == Some(s)
  {
    if s != [] {
      assert Encode(s) == EncodeChar(s[0]) + Encode(s[1..]);
      DecodeEncodeChar(s[0], Encode(s[1..]));
      DecodeEncode(s[1..]);
      assert [s[0]] + s[1..] == s;
    }
  }
}
