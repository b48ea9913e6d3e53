/** PHP's `json_encode` with its default flags, for the scalars the client
    passes it, together with a decoder that serves as its inverse.

    Default flags mean: `"` and `\` are backslash-escaped, `/` is escaped as
    `\/`, the control characters with short escapes use them, every other
    character below U+0020 and every character from U+0080 up is written as
    `\u` plus four lower-case hex digits (a surrogate pair above U+FFFF). */
module Json {
  import opened Wrappers
  import opened Text
  import opened PhpValue

  function HexDigit(d: nat): char
    requires d < 16
  {
    if d < 10 then DigitChar(d) else ('a' as int + (d - 10)) as char
  }

  function HexValue(c: char): Option<nat> {
    if '0' <= c <= '9' then Some(c as int - '0' as int)
    else if 'a' <= c <= 'f' then Some(c as int - 'a' as int + 10)
    else if 'A' <= c <= 'F' then Some(c as int - 'A' as int + 10)
    else None
  }

  /** Four lower-case hex digits of a UTF-16 code unit. */
  function Hex4(u: nat): (h: string)
    requires u < 0x10000
    ensures |h| == 4
  {
    [HexDigit(u / 16 / 16 / 16), HexDigit(u / 16 / 16 % 16), HexDigit(u / 16 % 16), HexDigit(u % 16)]
  }

  function ParseHex4(h: string): Option<nat>
    requires |h| == 4
  {
    match (HexValue(h[0]), HexValue(h[1]), HexValue(h[2]), HexValue(h[3]))
    case (Some(a), Some(b), Some(c), Some(d)) => Some(((a * 16 + b) * 16 + c) * 16 + d)
    case _ => None
  }

  lemma HexValueOfHexDigit(d: nat)
    requires d < 16
    ensures HexValue(HexDigit(d)) == Some(d)
  {
  }

  lemma ParseHex4OfHex4(u: nat)
    requires u < 0x10000
    ensures ParseHex4(Hex4(u)) == Some(u)
  {
    var h := Hex4(u);
    HexValueOfHexDigit(u / 16 / 16 / 16);
    HexValueOfHexDigit(u / 16 / 16 % 16);
    HexValueOfHexDigit(u / 16 % 16);
    HexValueOfHexDigit(u % 16);
    var q1 := u / 16;
    var q2 := q1 / 16;
    assert q2 / 16 * 16 + q2 % 16 == q2;
    assert q2 * 16 + q1 % 16 == q1;
    assert q1 * 16 + u % 16 == u;
  }

  function EscapeUnit(u: nat): (e: string)
    requires u < 0x10000
    ensures |e| == 6
  {
    "\\u" + Hex4(u)
  }

  /** How `json_encode` writes one character inside a string literal. */
  function EscapeChar(c: char): (e: string)
    ensures |e| >= 1
  {
    var n := c as int;
    if c == '"' then "\\\""
    else if c == '\\' then "\\\\"
    else if c == '/' then "\\/"
    else if n == 8 then "\\b"
    else if n == 12 then "\\f"
    else if n == 10 then "\\n"
    else if n == 13 then "\\r"
    else if n == 9 then "\\t"
    else if n < 0x20 then EscapeUnit(n)
    else if n < 0x80 then [c]
    else if n < 0x10000 then EscapeUnit(n)
    else EscapeUnit(0xD800 + (n - 0x10000) / 0x400) + EscapeUnit(0xDC00 + (n - 0x10000) % 0x400)
  }

  function Escape(s: string): string {
    if |s| == 0 then "" else EscapeChar(s[0]) + Escape(s[1..])
  }

  /** `json_encode` of a PHP string. */
  function EncodeString(s: string): string {
    "\"" + Escape(s) + "\""
  }

  /** `json_encode` of a PHP scalar. */
  function Encode(v: Value): string {
    match v
    case Str(s) => EncodeString(s)
    case Int(i) => IntToString(i)
    case Bool(b) => if b then "true" else "false"
    case Null => "null"
  }

  /** Reads one character of a JSON string body from the front of `s`:
      the character and the number of input characters it took. */
  function DecodeOne(s: string): (r: Option<(char, nat)>)
    requires |s| > 0
    ensures r.Some? ==> 1 <= r.value.1 <= |s|
  {
    if s[0] == '"' || (s[0] as int) < 0x20 then None
    else if s[0] != '\\' then Some((s[0], 1))
    else if |s| < 2 then None
    else if s[1] == '"' then Some(('"', 2))
    else if s[1] == '\\' then Some(('\\', 2))
    else if s[1] == '/' then Some(('/', 2))
    else if s[1] == 'b' then Some((8 as char, 2))
    else if s[1] == 'f' then Some((12 as char, 2))
    else if s[1] == 'n' then Some((10 as char, 2))
    else if s[1] == 'r' then Some((13 as char, 2))
    else if s[1] == 't' then Some((9 as char, 2))
    else if s[1] == 'u' then DecodeUnicode(s)
    else None
  }

  /** Reads a `\uXXXX` escape, or a surrogate pair of them, from the front of `s`. */
  function DecodeUnicode(s: string): (r: Option<(char, nat)>)
    requires |s| >= 2
    ensures r.Some? ==> 1 <= r.value.1 <= |s|
  {
    if |s| < 6 then None
    else match ParseHex4(s[2..6])
      case None => None
      case Some(u) =>
        if u < 0xD800 || 0xDFFF < u then Some((u as char, 6))
        else if 0xDC00 <= u || |s| < 12 || s[6] != '\\' || s[7] != 'u' then None
        else match ParseHex4(s[8..12])
          case None => None
          case Some(l) =>
            if 0xDC00 <= l <= 0xDFFF then Some(((0x10000 + (u - 0xD800) * 0x400 + (l - 0xDC00)) as char, 12))
            else None
  }

  /** Decodes the body of a JSON string literal (without its quotes). */
  function Unescape(s: string): Option<string>
    decreases |s|
  {
    if |s| == 0 then Some("")
    else match DecodeOne(s)
      case None => None
      case Some(p) =>
        match Unescape(s[p.1..])
        case None => None
        case Some(t) => Some([p.0] + t)
  }

  /** Decodes a JSON string literal. */
  function DecodeString(j: string): Option<string> {
    if |j| >= 2 && j[0] == '"' && j[|j| - 1] == '"' then Unescape(j[1..|j| - 1]) else None
  }

  /** Decodes the JSON text of a scalar. */
  function Decode(j: string): Option<Value> {
    if j == "true" then Some(Bool(true))
    else if j == "false" then Some(Bool(false))
    else if j == "null" then Some(Null)
    else if |j| > 0 && j[0] == '"' then
      match DecodeString(j)
      case None => None
      case Some(s) => Some(Str(s))
    else
      match ParseInt(j)
      case None => None
      case Some(i) => Some(Int(i))
  }

  lemma DecodeOneOfEscapeChar(c: char, t: string)
    ensures DecodeOne(EscapeChar(c) + t) == Some((c, |EscapeChar(c)|))
  {
    var n := c as int;
    var e := EscapeChar(c);
    var s := e + t;
    if c == '"' || c == '\\' || c == '/' || n == 8 || n == 12 || n == 10 || n == 13 || n == 9 {
      assert s[0] == '\\';
    } else if n < 0x20 || (0x80 <= n < 0x10000) {
      assert s[0] == '\\' && s[1] == 'u';
      assert s[2..6] == Hex4(n);
      ParseHex4OfHex4(n);
    } else if n < 0x80 {
      assert s[0] == c;
    } else {
      var v := n - 0x10000;
      var hi := 0xD800 + v / 0x400;
      var lo := 0xDC00 + v % 0x400;
      assert s[0] == '\\' && s[1] == 'u';
      assert s[2..6] == Hex4(hi);
      assert s[6] == '\\' && s[7] == 'u';
      assert s[8..12] == Hex4(lo);
      ParseHex4OfHex4(hi);
      ParseHex4OfHex4(lo);
      assert 0x10000 + (hi - 0xD800) * 0x400 + (lo - 0xDC00) == n;
    }
  }

  lemma {:induction false} UnescapeOfEscape(s: string)
    ensures Unescape(Escape(s)) == Some(s)
  {
    if |s| > 0 {
      var e := EscapeChar(s[0]);
      var rest := Escape(s[1..]);
      DecodeOneOfEscapeChar(s[0], rest);
      assert (e + rest)[|e|..] == rest;
      UnescapeOfEscape(s[1..]);
      assert [s[0]] + s[1..] == s;
    }
  }

  /** Decoding what `json_encode` wrote for a string gives the string back. */
  lemma DecodeStringOfEncodeString(s: string)
    ensures DecodeString(EncodeString(s)) == Some(s)
  {
    var j := EncodeString(s);
    assert j[1..|j| - 1] == Escape(s);
    UnescapeOfEscape(s);
  }

  /** `json_encode` loses nothing: every scalar is recovered from its encoding. */
  lemma DecodeOfEncode(v: Value)
    ensures Decode(Encode(v)) == Some(v)
  {
    match v
    case Str(s) =>
      var j := Encode(v);
      assert j[0] == '"';
      assert j != "true" && j != "false" && j != "null" by {
        assert "true"[0] != '"' && "false"[0] != '"' && "null"[0] != '"';
      }
      DecodeStringOfEncodeString(s);
    case Int(i) =>
      var j := IntToString(i);
      assert j[0] == '-' || IsDigit(j[0]);
      assert j != "true" && j != "false" && j != "null" by {
        assert !IsDigit('t') && !IsDigit('f') && !IsDigit('n');
      }
      ParseIntOfIntToString(i);
    case Bool(b) =>
    case Null =>
  }
}
