/**
 * JavaScript's `encodeURIComponent`: every character outside
 * `A-Z a-z 0-9 - _ . ! ~ * ' ( )` is replaced by the UTF-8 bytes of its code
 * point, each written `%XY` with upper-case hexadecimal digits, the
 * percent-encoding of section 2.1 of RFC 3986. The characters left alone are
 * the unreserved characters of section 2.3 of RFC 3986 together with
 * `! * ' ( )`. A percent-decoder to bytes is the partner that undoes it.
 */
module UriComponent {

  import opened Wrappers

  type Byte = b: int | 0 <= b < 256

  /** The characters `encodeURIComponent` leaves unescaped. */
  predicate IsUnescaped(c: char)
  {
    ('A' <= c <= 'Z') || ('a' <= c <= 'z') || ('0' <= c <= '9')
    || c == '-' || c == '_' || c == '.' || c == '!' || c == '~'
    || c == '*' || c == '\'' || c == '(' || c == ')'
  }

  predicate IsUpperHex(c: char)
  {
    ('0' <= c <= '9') || ('A' <= c <= 'F')
  }

  function HexDigit(d: nat): (c: char)
    requires d < 16
    ensures IsUpperHex(c)
  {
    if d < 10 then ('0' as int + d) as char else ('A' as int + d - 10) as char
  }

  function HexValue(c: char): (d: nat)
    requires IsUpperHex(c)
    ensures d < 16
    ensures HexDigit(d) == c
  {
    if c <= '9' then c as int - '0' as int else c as int - 'A' as int + 10
  }

  lemma HexRoundTrip(d: nat)
    requires d < 16
    ensures HexValue(HexDigit(d)) == d
  {
  }

  /** A UTF-8 continuation byte, `10xxxxxx`. */
  predicate IsContinuation(b: Byte)
  {
    0x80 <= b < 0xC0
  }

  /**
   * The code point a 1- to 4-byte UTF-8 sequence stands for: the payload bits
   * of the lead byte followed by six bits from each continuation byte.
   */
  function Utf8Value(bs: seq<Byte>): int
    requires 1 <= |bs| <= 4
  {
    var b: seq<int> := bs;
    if |b| == 1 then b[0]
    else if |b| == 2 then (b[0] - 0xC0) * 0x40 + (b[1] - 0x80)
    else if |b| == 3 then (b[0] - 0xE0) * 0x1000 + (b[1] - 0x80) * 0x40 + (b[2] - 0x80)
    else (b[0] - 0xF0) * 0x40000 + (b[1] - 0x80) * 0x1000 + (b[2] - 0x80) * 0x40 + (b[3] - 0x80)
  }

  /** Six-bit groups: `n` is its quotient by 64 followed by six bits of remainder. */
  lemma SixBits(n: nat)
    ensures n == (n / 0x40) * 0x40 + n % 0x40 && 0 <= n % 0x40 < 0x40
  {
  }

  /**
   * The UTF-8 encoding of one code point (Dafny characters are Unicode scalar
   * values): the shortest form, with the lead byte announcing the length,
   * continuation bytes after it, and the bits reading back as the code point.
   */
  function Utf8(c: char): (bs: seq<Byte>)
    ensures 1 <= |bs| <= 4
    ensures |bs| == 1 <==> c as int < 0x80
    ensures |bs| == 2 <==> 0x80 <= c as int < 0x800
    ensures |bs| == 3 <==> 0x800 <= c as int < 0x10000
    ensures |bs| == 4 <==> 0x10000 <= c as int
    ensures |bs| == 1 ==> bs[0] < 0x80
    ensures |bs| == 2 ==> 0xC2 <= bs[0] < 0xE0
    ensures |bs| == 3 ==> 0xE0 <= bs[0] < 0xF0
    ensures |bs| == 4 ==> 0xF0 <= bs[0] < 0xF5
    ensures forall i :: 1 <= i < |bs| ==> IsContinuation(bs[i])
    ensures Utf8Value(bs) == c as int
  {
    var n := c as int;
    var q1 := n / 0x40;
    var q2 := q1 / 0x40;
    var q3 := q2 / 0x40;
    SixBits(n);
    SixBits(q1);
    SixBits(q2);
    if n < 0x80 then [n]
    else if n < 0x800 then [0xC0 + q1, 0x80 + n % 0x40]
    else if n < 0x10000 then [0xE0 + q2, 0x80 + q1 % 0x40, 0x80 + n % 0x40]
    else [0xF0 + q3, 0x80 + q2 % 0x40, 0x80 + q1 % 0x40, 0x80 + n % 0x40]
  }

  /** The UTF-8 encoding of a string. */
  function Utf8String(s: string): seq<Byte>
  {
    if s == [] then [] else Utf8(s[0]) + Utf8String(s[1..])
  }

  /** `%XY` for every byte. */
  function PercentBytes(bs: seq<Byte>): (r: string)
    ensures |r| == 3 * |bs|
  {
    if bs == [] then [] else ['%', HexDigit(bs[0] / 16), HexDigit(bs[0] % 16)] + PercentBytes(bs[1..])
  }

  function EncodeChar(c: char): string
  {
    if IsUnescaped(c) then [c] else PercentBytes(Utf8(c))
  }

  /** `encodeURIComponent(s)`. */
  function EncodeUriComponent(s: string): string
  {
    if s == [] then [] else EncodeChar(s[0]) + EncodeUriComponent(s[1..])
  }

  /** Percent-decoding to bytes: `%XY` is the byte XY, an ASCII character is its own byte. */
  function PercentDecode(s: string): Option<seq<Byte>>
  {
    if s == [] then Some([])
    else if s[0] == '%' then
      if |s| >= 3 && IsUpperHex(s[1]) && IsUpperHex(s[2]) then
        Prepend([16 * HexValue(s[1]) + HexValue(s[2])], PercentDecode(s[3..]))
      else None
    else if s[0] as int < 0x80 then Prepend([s[0] as int], PercentDecode(s[1..]))
    else None
  }

  function Prepend(bs: seq<Byte>, o: Option<seq<Byte>>): Option<seq<Byte>>
  {
    if o.Some? then Some(bs + o.value) else None
  }

  /** Every character of an encoding is unescaped, `%` or an upper-case hex digit. */
  predicate IsEncoded(s: string)
  {
    forall i :: 0 <= i < |s| ==> IsUnescaped(s[i]) || s[i] == '%' || IsUpperHex(s[i])
  }

  lemma PercentByteDecode(b: Byte, rest: string)
    ensures PercentDecode(['%', HexDigit(b / 16), HexDigit(b % 16)] + rest)
         == Prepend([b], PercentDecode(rest))
  {
    var s := ['%', HexDigit(b / 16), HexDigit(b % 16)] + rest;
    assert s[0] == '%' && s[1] == HexDigit(b / 16) && s[2] == HexDigit(b % 16);
    assert s[3..] == rest;
    HexRoundTrip(b / 16);
    HexRoundTrip(b % 16);
  }

  lemma PrependTwice(a: seq<Byte>, b: seq<Byte>, o: Option<seq<Byte>>)
    ensures Prepend(a, Prepend(b, o)) == Prepend(a + b, o)
  {
    if o.Some? {
      assert a + (b + o.value) == (a + b) + o.value;
    }
  }

  lemma {:induction false} PercentBytesDecode(bs: seq<Byte>, rest: string)
    ensures PercentDecode(PercentBytes(bs) + rest) == Prepend(bs, PercentDecode(rest))
  {
    if bs == [] {
      assert PercentBytes(bs) + rest == rest;
      assert Prepend([], PercentDecode(rest)) == PercentDecode(rest) by {
        var o := PercentDecode(rest);
        if o.Some? { assert [] + o.value == o.value; }
      }
    } else {
      var b := bs[0];
      var tail := PercentBytes(bs[1..]) + rest;
      assert PercentBytes(bs) + rest == ['%', HexDigit(b / 16), HexDigit(b % 16)] + tail;
      PercentByteDecode(b, tail);
      PercentBytesDecode(bs[1..], rest);
      PrependTwice([b], bs[1..], PercentDecode(rest));
      assert [b] + bs[1..] == bs;
    }
  }

  lemma EncodeCharDecode(c: char, rest: string)
    ensures PercentDecode(EncodeChar(c) + rest) == Prepend(Utf8(c), PercentDecode(rest))
  {
    if IsUnescaped(c) {
      assert ([c] + rest)[1..] == rest;
    } else {
      PercentBytesDecode(Utf8(c), rest);
    }
  }

  /** Decoding an encoding gives back the UTF-8 bytes of the original string. */
  lemma {:induction false} EncodeDecodeRoundTrip(s: string)
    ensures PercentDecode(EncodeUriComponent(s)) == Some(Utf8String(s))
  {
    if s == [] {
    } else {
      EncodeCharDecode(s[0], EncodeUriComponent(s[1..]));
      EncodeDecodeRoundTrip(s[1..]);
    }
  }

  lemma {:induction false} PercentBytesEncoded(bs: seq<Byte>)
    ensures IsEncoded(PercentBytes(bs))
  {
    if bs != [] {
      PercentBytesEncoded(bs[1..]);
    }
  }

  /** The encoding only uses unescaped characters, `%` and upper-case hex digits. */
  lemma {:induction false} EncodeUriComponentIsEncoded(s: string)
    ensures IsEncoded(EncodeUriComponent(s))
  {
    if s != [] {
      PercentBytesEncoded(Utf8(s[0]));
      EncodeUriComponentIsEncoded(s[1..]);
    }
  }

  /** A string made only of unescaped characters is its own encoding. */
  lemma {:induction false} EncodeUnescapedIdentity(s: string)
    requires forall i :: 0 <= i < |s| ==> IsUnescaped(s[i])
    ensures EncodeUriComponent(s) == s
  {
    if s != [] {
      EncodeUnescapedIdentity(s[1..]);
    }
  }

  /** Encoding works character by character, so it distributes over concatenation. */
  lemma {:induction false} EncodeUriComponentAppend(a: string, b: string)
    ensures EncodeUriComponent(a + b) == EncodeUriComponent(a) + EncodeUriComponent(b)
  {
    if a == [] {
      assert a + b == b;
    } else {
      assert (a + b)[1..] == a[1..] + b;
      EncodeUriComponentAppend(a[1..], b);
    }
  }

  /** A space becomes `%20`. */
  lemma EncodeSpace()
    ensures EncodeUriComponent("a b") == "a%20b"
  {
    assert "a b"[1..] == " b";
    assert " b"[1..] == "b";
  }

  /** Accented letters, the euro sign and an emoji take two, three and four bytes. */
  lemma EncodeNonAscii()
    ensures EncodeUriComponent("\U{E9}") == "%C3%A9"
    ensures EncodeUriComponent("\U{20AC}") == "%E2%82%AC"
    ensures EncodeUriComponent("\U{1F600}") == "%F0%9F%98%80"
  {
    assert Utf8('\U{E9}') == [0xC3, 0xA9];
    assert Utf8('\U{20AC}') == [0xE2, 0x82, 0xAC];
    assert Utf8('\U{1F600}') == [0xF0, 0x9F, 0x98, 0x80];
    EncodeOneChar('\U{E9}');
    EncodeOneChar('\U{20AC}');
    EncodeOneChar('\U{1F600}');
  }

  lemma EncodeOneChar(c: char)
    ensures EncodeUriComponent([c]) == EncodeChar(c)
  {
    assert [c][1..] == [];
  }

}
