/**
 * The JSON text `serde_json::to_string` writes for the gateway's `SessionData`
 * record, and the reading of that text back by `serde_json::from_str`.
 */
module SessionJson {
  import opened Wrappers
  import opened Numerals

  /** The record kept per client in the session store. */
  datatype SessionData = SessionData(clientId: U64, canisterId: string, timestamp: U64)

  /** How serde_json writes one character inside a string literal. */
  function EscapeChar(c: char): (s: string)
    ensures 1 <= |s|
    ensures s[0] == '"' ==> false
  {
    if c == '"' then "\\\""
    else if c == '\\' then "\\\\"
    else if c == '\U{8}' then "\\b"
    else if c == '\t' then "\\t"
    else if c == '\n' then "\\n"
    else if c == '\U{C}' then "\\f"
    else if c == '\r' then "\\r"
    else if (c as int) < 0x20 then ['\\', 'u', '0', '0', HexDigit(c as int / 16, false), HexDigit(c as int % 16, false)]
    else [c]
  }

  function EscapeString(s: string): string {
    if s == [] then [] else EscapeChar(s[0]) + EscapeString(s[1..])
  }

  /** `serde_json::to_string(&data)`: fields in declaration order, no whitespace. */
  function Serialize(d: SessionData): string {
    "{\"client_id\":" + Decimal(d.clientId)
    + ",\"canister_id\":\"" + EscapeString(d.canisterId)
    + "\",\"timestamp\":" + Decimal(d.timestamp) + "}"
  }

  /** The number of leading ASCII digits of `s`. */
  function DigitRun(s: string): (n: nat)
    ensures n <= |s| && AllDigits(s[..n])
    ensures n < |s| ==> !IsDigit(s[n])
  {
    if s == [] || !IsDigit(s[0]) then 0
    else
      var n := 1 + DigitRun(s[1..]);
      assert s[..n] == [s[0]] + s[1..][..n - 1];
      n
  }

  /** A JSON integer read into a `u64`: no leading zeros, and it must fit. */
  function ParseNumber(s: string): (r: Option<(U64, string)>)
    ensures r.Some? ==> |r.value.1| < |s|
  {
    var n := DigitRun(s);
    if n == 0 || (s[0] == '0' && n > 1) then None
    else if DigitsValue(s[..n]) < U64_LIMIT then Some((DigitsValue(s[..n]), s[n..]))
    else None
  }

  function Hex4(s: string): Option<nat> {
    if |s| >= 4 && IsHexDigit(s[0]) && IsHexDigit(s[1]) && IsHexDigit(s[2]) && IsHexDigit(s[3])
    then Some(((HexValue(s[0]) * 16 + HexValue(s[1])) * 16 + HexValue(s[2])) * 16 + HexValue(s[3]))
    else None
  }

  /**
   * The escape after a backslash: the character and how many characters it takes.
   * A `\u` escape of a surrogate must be a high surrogate followed by a `\u` low one.
   */
  function ParseEscape(s: string): (r: Option<(char, nat)>)
    ensures r.Some? ==> 1 <= r.value.1 <= |s|
  {
    if s == [] then None
    else if s[0] == '"' || s[0] == '\\' || s[0] == '/' then Some((s[0], 1))
    else if s[0] == 'b' then Some(('\U{8}', 1))
    else if s[0] == 'f' then Some(('\U{C}', 1))
    else if s[0] == 'n' then Some(('\n', 1))
    else if s[0] == 'r' then Some(('\r', 1))
    else if s[0] == 't' then Some(('\t', 1))
    else if s[0] != 'u' then None
    else match Hex4(s[1..])
      case None => None
      case Some(v) =>
        if v < 0xD800 || 0xE000 <= v then Some((v as char, 5))
        else if 0xDC00 <= v || |s| < 11 || s[5] != '\\' || s[6] != 'u' then None
        else match Hex4(s[7..])
          case None => None
          case Some(w) =>
            if 0xDC00 <= w < 0xE000 then Some(((0x1_0000 + (v - 0xD800) * 0x400 + (w - 0xDC00)) as char, 11))
            else None
  }

  /** The rest of a string literal after its opening quote: its value and the text after the closing quote. */
  function ParseStringBody(s: string): (r: Option<(string, string)>)
    ensures r.Some? ==> |r.value.1| < |s|
    decreases |s|
  {
    if s == [] then None
    else if s[0] == '"' then Some(([], s[1..]))
    else if s[0] == '\\' then
      match ParseEscape(s[1..])
      case None => None
      case Some(e) =>
        match ParseStringBody(s[1 + e.1..])
        case None => None
        case Some(p) => Some(([e.0] + p.0, p.1))
    else if (s[0] as int) < 0x20 then None
    else
      match ParseStringBody(s[1..])
      case None => None
      case Some(p) => Some(([s[0]] + p.0, p.1))
  }

  function Expect(literal: string, s: string): Option<string> {
    if |literal| <= |s| && s[..|literal|] == literal then Some(s[|literal|..]) else None
  }

  /**
   * `serde_json::from_str::<SessionData>` on text in the layout `Serialize` writes;
   * `None` where serde_json reports an error.
   */
  function Parse(t: string): Option<SessionData> {
    match Expect("{\"client_id\":", t)
    case None => None
    case Some(t1) => ParseFromClientId(t1)
  }

  function ParseFromClientId(t: string): Option<SessionData> {
    match ParseNumber(t)
    case None => None
    case Some(p) =>
      match Expect(",\"canister_id\":\"", p.1)
      case None => None
      case Some(t2) => ParseFromCanisterId(t2, p.0)
  }

  function ParseFromCanisterId(t: string, clientId: U64): Option<SessionData> {
    match ParseStringBody(t)
    case None => None
    case Some(p) =>
      match Expect(",\"timestamp\":", p.1)
      case None => None
      case Some(t3) => ParseFromTimestamp(t3, clientId, p.0)
  }

  function ParseFromTimestamp(t: string, clientId: U64, canisterId: string): Option<SessionData> {
    match ParseNumber(t)
    case None => None
    case Some(p) => if p.1 == "}" then Some(SessionData(clientId, canisterId, p.0)) else None
  }

  lemma {:induction false} DigitRunOfNumeral(d: string, rest: string)
    requires AllDigits(d)
    requires rest == [] || !IsDigit(rest[0])
    ensures DigitRun(d + rest) == |d|
  {
    if d != [] {
      assert (d + rest)[1..] == d[1..] + rest;
      DigitRunOfNumeral(d[1..], rest);
    } else {
      assert d + rest == rest;
    }
  }

  /** A rendered 64-bit number followed by a non-digit reads back as itself. */
  lemma ParseNumberDecimal(n: U64, rest: string)
    requires rest == [] || !IsDigit(rest[0])
    ensures ParseNumber(Decimal(n) + rest) == Some((n, rest))
  {
    var d := Decimal(n);
    DigitRunOfNumeral(d, rest);
    assert (d + rest)[..|d|] == d;
    assert (d + rest)[|d|..] == rest;
    DecimalValue(n);
  }

  lemma ParseEscapedChar(c: char, rest: string)
    ensures ParseStringBody(EscapeChar(c) + rest)
      == match ParseStringBody(rest) case None => None case Some(p) => Some(([c] + p.0, p.1))
  {
    var e := EscapeChar(c);
    if |e| == 1 {
      assert (e + rest)[1..] == rest;
    } else if |e| == 2 {
      ParseShortEscape(c, rest);
    } else {
      ParseUnicodeEscape(c, rest);
    }
  }

  lemma ParseShortEscape(c: char, rest: string)
    requires |EscapeChar(c)| == 2
    ensures ParseStringBody(EscapeChar(c) + rest)
      == match ParseStringBody(rest) case None => None case Some(p) => Some(([c] + p.0, p.1))
  {
    var s := EscapeChar(c) + rest;
    assert s[0] == '\\';
    assert s[1..] == [EscapeChar(c)[1]] + rest;
    assert ParseEscape(s[1..]) == Some((c, 1));
    assert s[2..] == rest;
  }

  lemma ParseUnicodeEscape(c: char, rest: string)
    requires |EscapeChar(c)| == 6
    ensures ParseStringBody(EscapeChar(c) + rest)
      == match ParseStringBody(rest) case None => None case Some(p) => Some(([c] + p.0, p.1))
  {
    var hi, lo := HexDigit(c as int / 16, false), HexDigit(c as int % 16, false);
    assert EscapeChar(c) == ['\\', 'u', '0', '0', hi, lo];
    var s := EscapeChar(c) + rest;
    var t := s[1..];
    var u := t[1..];
    assert t[0] == 'u';
    assert u[0] == '0' && u[1] == '0' && u[2] == hi && u[3] == lo;
    assert (c as int / 16) * 16 + c as int % 16 == c as int;
    assert Hex4(u) == Some(c as int);
    assert ParseEscape(t) == Some((c, 5));
    assert s[6..] == rest;
  }

  /** A string escaped by serde_json and closed by a quote reads back as itself. */
  lemma {:induction false} ParseEscapedString(v: string, rest: string)
    ensures ParseStringBody(EscapeString(v) + "\"" + rest) == Some((v, rest))
  {
    if v == [] {
      assert EscapeString(v) + "\"" + rest == ['"'] + rest;
    } else {
      calc {
        EscapeString(v) + "\"" + rest;
        EscapeChar(v[0]) + (EscapeString(v[1..]) + "\"" + rest);
      }
      ParseEscapedChar(v[0], EscapeString(v[1..]) + "\"" + rest);
      ParseEscapedString(v[1..], rest);
      assert [v[0]] + v[1..] == v;
    }
  }

  lemma ExpectPrefix(literal: string, rest: string)
    ensures Expect(literal, literal + rest) == Some(rest)
  {
    assert (literal + rest)[..|literal|] == literal;
    assert (literal + rest)[|literal|..] == rest;
  }

  lemma ReadTimestamp(d: SessionData)
    ensures ParseFromTimestamp(Decimal(d.timestamp) + "}", d.clientId, d.canisterId) == Some(d)
  {
    ParseNumberDecimal(d.timestamp, "}");
  }

  lemma ReadCanisterId(d: SessionData)
    ensures ParseFromCanisterId(EscapeString(d.canisterId) + ("\",\"timestamp\":" + (Decimal(d.timestamp) + "}")), d.clientId) == Some(d)
  {
    var rest := ",\"timestamp\":" + (Decimal(d.timestamp) + "}");
    assert "\",\"timestamp\":" == "\"" + ",\"timestamp\":";
    assert EscapeString(d.canisterId) + ("\",\"timestamp\":" + (Decimal(d.timestamp) + "}")) == EscapeString(d.canisterId) + "\"" + rest;
    ParseEscapedString(d.canisterId, rest);
    ExpectPrefix(",\"timestamp\":", Decimal(d.timestamp) + "}");
    ReadTimestamp(d);
  }

  lemma ReadClientId(d: SessionData, tail: string)
    requires tail == EscapeString(d.canisterId) + ("\",\"timestamp\":" + (Decimal(d.timestamp) + "}"))
    ensures ParseFromClientId(Decimal(d.clientId) + (",\"canister_id\":\"" + tail)) == Some(d)
  {
    ParseNumberDecimal(d.clientId, ",\"canister_id\":\"" + tail);
    ExpectPrefix(",\"canister_id\":\"", tail);
    ReadCanisterId(d);
  }

  lemma Reassociate(a: string, b: string, c: string, e: string, q: string, t: string, z: string)
    ensures a + b + c + e + q + t + z == a + (b + (c + (e + (q + (t + z)))))
  {
  }

  /** serde_json reads back exactly the record it wrote. */
  lemma ParseSerialize(d: SessionData)
    ensures Parse(Serialize(d)) == Some(d)
  {
    var tail := EscapeString(d.canisterId) + ("\",\"timestamp\":" + (Decimal(d.timestamp) + "}"));
    var tail1 := Decimal(d.clientId) + (",\"canister_id\":\"" + tail);
    Reassociate("{\"client_id\":", Decimal(d.clientId), ",\"canister_id\":\"", EscapeString(d.canisterId),
                "\",\"timestamp\":", Decimal(d.timestamp), "}");
    ExpectPrefix("{\"client_id\":", tail1);
    ReadClientId(d, tail);
  }
}
