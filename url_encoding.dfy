/**
 * The two URL encoders the application relies on: `encodeURIComponent` (used by the
 * navigation bar's search box) and the application/x-www-form-urlencoded serializer
 * behind `URLSearchParams.toString()` (used by the catalogue's filters). Both encode
 * the UTF-8 bytes of the text, leaving a small set of ASCII bytes as they are and
 * writing every other byte as `%` followed by two upper-case hexadecimal digits.
 * `FormDecode` is the matching decoder of the WHATWG URL Standard (section 5.1,
 * application/x-www-form-urlencoded parsing), stated on bytes.
 */
module UrlEncoding {
  import opened Text

  type Byte = b: int | 0 <= b < 256

  /** The UTF-8 encoding of one Unicode scalar value. */
  function Utf8Char(c: char): (bs: seq<Byte>)
    ensures 1 <= |bs| <= 4
    ensures (c as int < 0x80) <==> (|bs| == 1)
    ensures |bs| == 1 ==> bs[0] == c as int
  {
    var n := c as int;
    if n < 0x80 then [n]
    else if n < 0x800 then [0xC0 + n / 64, 0x80 + n % 64]
    else if n < 0x10000 then [0xE0 + n / 4096, 0x80 + (n / 64) % 64, 0x80 + n % 64]
    else [0xF0 + n / 262144, 0x80 + (n / 4096) % 64, 0x80 + (n / 64) % 64, 0x80 + n % 64]
  }

  /** The UTF-8 encoding of a string. */
  function Utf8(s: string): (bs: seq<Byte>)
    ensures |s| <= |bs| <= 4 * |s|
  {
    if s == [] then [] else Utf8Char(s[0]) + Utf8(s[1..])
  }

  const HexUpper: string := "0123456789ABCDEF"

  /** The upper-case digit for `d` reads back as `d`. */
  lemma HexUpperDigit(d: nat)
    requires d < 16
    ensures IsHexDigit(HexUpper[d]) && HexDigitValue(HexUpper[d]) == d
  {
    if d < 10 {
      assert HexUpper[d] == DigitChar(d);
    } else {
      assert HexUpper[d] as int == 'A' as int + d - 10;
    }
  }

  /** `%` followed by the byte's two upper-case hexadecimal digits. */
  function PercentByte(b: Byte): (t: string)
    ensures |t| == 3 && t[0] == '%' && IsHexDigit(t[1]) && IsHexDigit(t[2])
    ensures 16 * HexDigitValue(t[1]) + HexDigitValue(t[2]) == b
  {
    HexUpperDigit(b / 16);
    HexUpperDigit(b % 16);
    ['%', HexUpper[b / 16], HexUpper[b % 16]]
  }

  predicate IsAsciiAlnum(b: Byte)
  {
    ('0' as int <= b <= '9' as int) || ('A' as int <= b <= 'Z' as int) || ('a' as int <= b <= 'z' as int)
  }

  /** Bytes `encodeURIComponent` leaves unescaped: letters, digits and `-_.!~*'()`. */
  predicate ComponentSafe(b: Byte)
  {
    IsAsciiAlnum(b) || b == '-' as int || b == '_' as int || b == '.' as int || b == '!' as int
    || b == '~' as int || b == '*' as int || b == '\'' as int || b == '(' as int || b == ')' as int
  }

  /** Bytes the form-urlencoded serializer leaves unescaped: letters, digits and `*-._`. */
  predicate FormSafe(b: Byte)
  {
    IsAsciiAlnum(b) || b == '*' as int || b == '-' as int || b == '.' as int || b == '_' as int
  }

  function ComponentEncodeByte(b: Byte): (t: string)
  {
    if ComponentSafe(b) then [b as char] else PercentByte(b)
  }

  /** The form serializer writes a space as `+`. */
  function FormEncodeByte(b: Byte): (t: string)
  {
    if b == 0x20 then "+" else if FormSafe(b) then [b as char] else PercentByte(b)
  }

  function ComponentEncodeBytes(bs: seq<Byte>): string
  {
    if bs == [] then "" else ComponentEncodeByte(bs[0]) + ComponentEncodeBytes(bs[1..])
  }

  function FormEncodeBytes(bs: seq<Byte>): string
  {
    if bs == [] then "" else FormEncodeByte(bs[0]) + FormEncodeBytes(bs[1..])
  }

  /** `encodeURIComponent(s)`. */
  function EncodeURIComponent(s: string): string
  {
    ComponentEncodeBytes(Utf8(s))
  }

  /** The form-urlencoded serialization of one name or value. */
  function FormEncode(s: string): string
  {
    FormEncodeBytes(Utf8(s))
  }

  /**
   * application/x-www-form-urlencoded decoding of one name or value, to bytes:
   * `+` is a space, `%` with two hexadecimal digits is that byte, and any other
   * character stands for its own UTF-8 bytes.
   */
  function FormDecode(t: string): seq<Byte>
  {
    if t == [] then []
    else if t[0] == '%' && |t| >= 3 && IsHexDigit(t[1]) && IsHexDigit(t[2]) then
      [16 * HexDigitValue(t[1]) + HexDigitValue(t[2])] + FormDecode(t[3..])
    else if t[0] == '+' then [0x20] + FormDecode(t[1..])
    else Utf8Char(t[0]) + FormDecode(t[1..])
  }

  /** The characters an encoder may produce from an unescaped byte or a `%` escape. */
  predicate ComponentOutputChar(c: char)
  {
    (c as int < 256 && ComponentSafe(c as int)) || c == '%' || IsHexDigit(c)
  }

  lemma DecodeOneToken(tok: string, rest: string, b: Byte)
    requires tok == ComponentEncodeByte(b) || tok == FormEncodeByte(b)
    ensures FormDecode(tok + rest) == [b] + FormDecode(rest)
  {
    if |tok| == 3 {
      DecodeEscape(tok, rest, b);
    } else {
      DecodeLiteral(tok, rest, b);
    }
  }

  /** A `%` escape decodes to its byte. */
  lemma DecodeEscape(tok: string, rest: string, b: Byte)
    requires tok == PercentByte(b)
    ensures FormDecode(tok + rest) == [b] + FormDecode(rest)
  {
    var t := tok + rest;
    assert t[0] == '%' && t[1] == tok[1] && t[2] == tok[2] && t[3..] == rest;
  }

  /** An unescaped byte, or `+` for a space, decodes to itself. */
  lemma DecodeLiteral(tok: string, rest: string, b: Byte)
    requires (tok == [b as char] && b < 0x80 && b as char != '%' && b as char != '+') || (tok == "+" && b == 0x20)
    ensures FormDecode(tok + rest) == [b] + FormDecode(rest)
  {
    var t := tok + rest;
    assert t[0] == tok[0] && t[1..] == rest;
    if tok != "+" {
      assert Utf8Char(tok[0]) == [b];
    }
  }

  /** Decoding what `encodeURIComponent` produced gives back the UTF-8 bytes of the text. */
  lemma {:induction false} ComponentBytesRoundTrip(bs: seq<Byte>)
    ensures FormDecode(ComponentEncodeBytes(bs)) == bs
  {
    if bs != [] {
      ComponentBytesRoundTrip(bs[1..]);
      DecodeOneToken(ComponentEncodeByte(bs[0]), ComponentEncodeBytes(bs[1..]), bs[0]);
    }
  }

  /** Decoding what the form serializer produced gives back the UTF-8 bytes of the text. */
  lemma {:induction false} FormBytesRoundTrip(bs: seq<Byte>)
    ensures FormDecode(FormEncodeBytes(bs)) == bs
  {
    if bs != [] {
      FormBytesRoundTrip(bs[1..]);
      DecodeOneToken(FormEncodeByte(bs[0]), FormEncodeBytes(bs[1..]), bs[0]);
    }
  }

  lemma EncodeURIComponentRoundTrip(s: string)
    ensures FormDecode(EncodeURIComponent(s)) == Utf8(s)
  {
    ComponentBytesRoundTrip(Utf8(s));
  }

  /**
   * `encodeURIComponent` output uses only unescaped characters, `%` and hexadecimal
   * digits: it never holds `&`, `=`, `#`, `+`, `?` or a space, so it cannot end a
   * query parameter early.
   */
  lemma {:induction false} ComponentOutputAlphabet(bs: seq<Byte>)
    ensures forall i :: 0 <= i < |ComponentEncodeBytes(bs)| ==> ComponentOutputChar(ComponentEncodeBytes(bs)[i])
  {
    if bs != [] {
      ComponentOutputAlphabet(bs[1..]);
      var head := ComponentEncodeByte(bs[0]);
      var tail := ComponentEncodeBytes(bs[1..]);
      assert ComponentEncodeBytes(bs) == head + tail;
      forall i | 0 <= i < |head| ensures ComponentOutputChar(head[i]) {
      }
    }
  }

  /** Hence `encodeURIComponent` never writes `&`, `#`, `=`, `+` or a space. */
  lemma EncodeURIComponentQuerySafe(s: string)
    ensures forall i :: 0 <= i < |EncodeURIComponent(s)| ==>
      EncodeURIComponent(s)[i] !in {'&', '#', '=', '+', ' '}
  {
    ComponentOutputAlphabet(Utf8(s));
  }
}
