/** `application/x-www-form-urlencoded` encoding of a string over its UTF-8 bytes, the
    scheme of Java's `URLEncoder.encode(s, "UTF-8")`, which the rule links use for the
    rule key; together with the matching decoder, so that the encoding can be shown
    to lose nothing. */
module UrlEncoding {
  import opened Wrappers
  import Text

  type Byte = b: int | 0 <= b < 256

  /** Characters the encoder leaves as they are. */
  predicate IsUnreserved(c: char) {
    ('a' <= c <= 'z') || ('A' <= c <= 'Z') || ('0' <= c <= '9') || c == '.' || c == '-' || c == '*' || c == '_'
  }

  /** Characters that can appear in encoded text. */
  predicate IsEncodedChar(c: char) {
    IsUnreserved(c) || c == '%' || c == '+'
  }

  predicate AllEncodedChars(s: string) {
    forall i :: 0 <= i < |s| ==> IsEncodedChar(s[i])
  }

  function HexDigit(d: nat): (c: char)
    requires d < 16
    ensures IsUnreserved(c)
  {
    ['0', '1', '2', '3', '4', '5', '6', '7', '8', '9', 'A', 'B', 'C', 'D', 'E', 'F'][d]
  }

  predicate IsHexDigit(c: char) {
    ('0' <= c <= '9') || ('A' <= c <= 'F') || ('a' <= c <= 'f')
  }

  function HexValue(c: char): (d: nat)
    requires IsHexDigit(c)
    ensures d < 16
  {
    if '0' <= c <= '9' then c as int - '0' as int
    else if 'A' <= c <= 'F' then c as int - 'A' as int + 10
    else c as int - 'a' as int + 10
  }

  lemma HexRoundTrip(d: nat)
    requires d < 16
    ensures IsHexDigit(HexDigit(d)) && HexValue(HexDigit(d)) == d
  {
  }

  /** UTF-8 encoding of one Unicode scalar value (one to four bytes). */
  function Utf8Char(c: char): (bs: seq<Byte>)
    ensures 1 <= |bs| <= 4
    ensures (c as int < 0x80) <==> |bs| == 1
  {
    var cp := c as int;
    if cp < 0x80 then [cp]
    else if cp < 0x800 then [0xC0 + cp / 0x40, 0x80 + cp % 0x40]
    else if cp < 0x1_0000 then [0xE0 + cp / 0x1000, 0x80 + (cp / 0x40) % 0x40, 0x80 + cp % 0x40]
    else [0xF0 + cp / 0x4_0000, 0x80 + (cp / 0x1000) % 0x40, 0x80 + (cp / 0x40) % 0x40, 0x80 + cp % 0x40]
  }

  function Utf8(s: string): (bs: seq<Byte>)
    ensures |bs| >= |s|
  {
    if |s| == 0 then [] else Utf8Char(s[0]) + Utf8(s[1..])
  }

  /** One byte written as '%' and two upper-case hexadecimal digits. */
  function EscapeByte(b: Byte): (r: string)
    ensures |r| == 3 && r[0] == '%'
    ensures AllEncodedChars(r)
  {
    ['%', HexDigit(b / 16), HexDigit(b % 16)]
  }

  function Escape(bs: seq<Byte>): (r: string)
    ensures |r| == 3 * |bs|
    ensures AllEncodedChars(r)
  {
    if |bs| == 0 then [] else EscapeByte(bs[0]) + Escape(bs[1..])
  }

  function EncodeChar(c: char): (r: string)
    ensures IsUnreserved(c) ==> r == [c]
    ensures AllEncodedChars(r)
    ensures |r| >= 1
  {
    if IsUnreserved(c) then [c]
    else if c == ' ' then "+"
    else Escape(Utf8Char(c))
  }

  /** URL-encodes `s`; the result holds only unreserved characters, '%' and '+', so it
      carries no ':', '/', '#', '&' or '=' that would change the meaning of a URL. */
  function Encode(s: string): (r: string)
    ensures |r| >= |s|
    ensures AllEncodedChars(r)
  {
    if |s| == 0 then [] else EncodeChar(s[0]) + Encode(s[1..])
  }

  predicate AllUnreserved(s: string) {
    forall i :: 0 <= i < |s| ==> IsUnreserved(s[i])
  }

  /** Encoding works character by character, so it distributes over concatenation. */
  lemma {:induction false} EncodeAppend(a: string, b: string)
    ensures Encode(a + b) == Encode(a) + Encode(b)
  {
    if |a| == 0 {
      assert a + b == b;
    } else {
      assert (a + b)[0] == a[0];
      assert (a + b)[1..] == a[1..] + b;
      EncodeAppend(a[1..], b);
      Text.AppendAssoc(EncodeChar(a[0]), Encode(a[1..]), Encode(b));
    }
  }

  /** Text made only of unreserved characters is left as it is. */
  lemma {:induction false} EncodeUnreserved(s: string)
    requires AllUnreserved(s)
    ensures Encode(s) == s
  {
    if |s| > 0 {
      EncodeUnreserved(s[1..]);
      assert [s[0]] + s[1..] == s;
    }
  }

  function Prepend(bs: seq<Byte>, rest: Option<seq<Byte>>): Option<seq<Byte>> {
    match rest
    case None => None
    case Some(t) => Some(bs + t)
  }

  /** Decodes URL-encoded text back to bytes; fails on a character the encoder never
      writes or on a malformed escape. */
  function Decode(s: string): (r: Option<seq<Byte>>)
  {
    if |s| == 0 then Some([])
    else if s[0] == '+' then Prepend([32], Decode(s[1..]))
    else if s[0] == '%' then
      if |s| >= 3 && IsHexDigit(s[1]) && IsHexDigit(s[2]) then
        Prepend([16 * HexValue(s[1]) + HexValue(s[2])], Decode(s[3..]))
      else None
    else if IsUnreserved(s[0]) then Prepend([s[0] as int], Decode(s[1..]))
    else None
  }

  lemma DecodeEscapeByte(b: Byte, t: string)
    ensures Decode(EscapeByte(b) + t) == Prepend([b], Decode(t))
  {
    var s := EscapeByte(b) + t;
    HexRoundTrip(b / 16);
    HexRoundTrip(b % 16);
    assert s[1] == HexDigit(b / 16) && s[2] == HexDigit(b % 16);
    assert s[3..] == t;
  }

  lemma {:induction false} DecodeEscape(bs: seq<Byte>, t: string)
    ensures Decode(Escape(bs) + t) == Prepend(bs, Decode(t))
  {
    if |bs| == 0 {
      assert Escape(bs) + t == t;
      if Decode(t).Some? {
        assert bs + Decode(t).value == Decode(t).value;
      }
    } else {
      var rest := Escape(bs[1..]) + t;
      Text.AppendAssoc(EscapeByte(bs[0]), Escape(bs[1..]), t);
      DecodeEscapeByte(bs[0], rest);
      DecodeEscape(bs[1..], t);
      match Decode(t)
      case None =>
      case Some(v) =>
        Text.AppendAssoc([bs[0]], bs[1..], v);
        assert [bs[0]] + bs[1..] == bs;
    }
  }

  lemma DecodeEncodeChar(c: char, t: string)
    ensures Decode(EncodeChar(c) + t) == Prepend(Utf8Char(c), Decode(t))
  {
    if IsUnreserved(c) {
      assert (EncodeChar(c) + t)[1..] == t;
    } else if c == ' ' {
      assert (EncodeChar(c) + t)[1..] == t;
    } else {
      DecodeEscape(Utf8Char(c), t);
    }
  }

  /** Decoding an encoded string gives back exactly the UTF-8 bytes of the original. */
  lemma {:induction false} DecodeEncode(s: string)
    ensures Decode(Encode(s)) == Some(Utf8(s))
  {
    if |s| > 0 {
      DecodeEncodeChar(s[0], Encode(s[1..]));
      DecodeEncode(s[1..]);
    }
  }
}
