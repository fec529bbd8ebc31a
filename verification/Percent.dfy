/**
 Percent coding of the panel API.  `Encode` is the query encoder and `Decode` the path decoder.
 Both read the bytes of a UTF-8 text; the encoder's output is ASCII, and the decoder pushes one
 character for each byte, given here by its code point below 256.  `Utf8` gives the bytes of the
 decoder's text.
 */
module Percent {
  import opened Basics

  const PERCENT: Byte := '%' as int
  const PLUS: Byte := '+' as int

  /** The unreserved characters of section 2.3 of RFC 3986. */
  predicate Unreserved(b: Byte) {
    || 'A' as int <= b <= 'Z' as int || 'a' as int <= b <= 'z' as int || '0' as int <= b <= '9' as int
    || b == '-' as int || b == '_' as int || b == '.' as int || b == '~' as int
  }

  /** An upper-case hexadecimal digit. */
  function HexDigit(n: int): Byte
    requires 0 <= n < 16
  {
    if n < 10 then '0' as int + n else 'A' as int + n - 10
  }

  function HexValue(b: Byte): Option<int> {
    if '0' as int <= b <= '9' as int then Some(b - '0' as int)
    else if 'A' as int <= b <= 'F' as int then Some(b - 'A' as int + 10)
    else if 'a' as int <= b <= 'f' as int then Some(b - 'a' as int + 10)
    else None
  }

  function EncodeByte(b: Byte): seq<Byte> {
    if Unreserved(b) then [b] else [PERCENT, HexDigit(b / 16), HexDigit(b % 16)]
  }

  function Encode(s: seq<Byte>): seq<Byte> {
    if s == [] then [] else EncodeByte(s[0]) + Encode(s[1..])
  }

  /** Two bytes form valid UTF-8: two ASCII characters or one two-byte sequence. */
  predicate Utf8Pair(a: Byte, b: Byte) {
    (a < 0x80 && b < 0x80) || (0xC2 <= a <= 0xDF && 0x80 <= b <= 0xBF)
  }

  /** The byte the two bytes after a percent sign stand for: a pair that is not UTF-8 counts
      as "00", and a leading plus sign is accepted as `u8::from_str_radix` accepts it. */
  function HexPair(a: Byte, b: Byte): Option<int> {
    if !Utf8Pair(a, b) then Some(0)
    else if a == PLUS then HexValue(b)
    else StandardPair(a, b)
  }

  const UPPER_DIGITS := "0123456789ABCDEF"
  const LOWER_DIGITS := "0123456789abcdef"
  const CAPITALS := "ABCDEFGHIJKLMNOPQRSTUVWXYZ"
  const SMALL := "abcdefghijklmnopqrstuvwxyz"
  const OTHERS := "0123456789-._~"

  /** A byte is the hexadecimal digit n exactly when it is the n-th of the upper-case or of the
      lower-case digits. */
  lemma HexValueIff(b: Byte, n: int)
    ensures HexValue(b) == Some(n) <==> 0 <= n < 16 && (b == UPPER_DIGITS[n] as int || b == LOWER_DIGITS[n] as int)
  {
  }

  /** The byte is a character of the text. */
  predicate OneOf(b: Byte, text: string) {
    exists i :: 0 <= i < |text| && text[i] as int == b
  }

  /** The letters, the digits and four marks are unreserved, and nothing else. */
  lemma UnreservedIff(b: Byte)
    ensures Unreserved(b) <==> OneOf(b, CAPITALS) || OneOf(b, SMALL) || OneOf(b, OTHERS)
  {
    assert forall i :: 0 <= i < 26 ==> CAPITALS[i] as int == 'A' as int + i;
    assert forall i :: 0 <= i < 26 ==> SMALL[i] as int == 'a' as int + i;
    assert forall i :: 0 <= i < 10 ==> OTHERS[i] as int == '0' as int + i;
    if 'A' as int <= b <= 'Z' as int {
      assert CAPITALS[b - 'A' as int] as int == b;
    } else if 'a' as int <= b <= 'z' as int {
      assert SMALL[b - 'a' as int] as int == b;
    } else if '0' as int <= b <= '9' as int {
      assert OTHERS[b - '0' as int] as int == b;
    } else {
      assert OTHERS[10] == '-' && OTHERS[11] == '.' && OTHERS[12] == '_' && OTHERS[13] == '~';
    }
  }

  /** Two bytes are UTF-8 exactly when they are two ASCII characters or encode one code point of eleven
      bits that needs two bytes. */
  lemma Utf8PairIff(a: Byte, b: Byte)
    ensures Utf8Pair(a, b) <==>
      (a < 0x80 && b < 0x80) || exists c :: 0x80 <= c < 0x800 && a == 0xC0 + Upper(c) && b == 0x80 + c % 64
  {
    if Utf8Pair(a, b) && a >= 0x80 {
      var c := (a - 0xC0) * 64 + (b - 0x80);
      assert 0x80 <= c < 0x800 && a == 0xC0 + Upper(c) && b == 0x80 + c % 64;
    }
  }

  /** The bits of a code point above the lowest six. */
  function Upper(c: int): int {
    c / 64
  }

  /** A percent-encoded byte by section 2.1 of RFC 3986: two hexadecimal digits. */
  function StandardPair(a: Byte, b: Byte): Option<int> {
    if HexValue(a).Some? && HexValue(b).Some? then Some(16 * HexValue(a).value + HexValue(b).value) else None
  }

  /** The decoder reads a pair as the standard does exactly when it is UTF-8 and not a plus sign
      with one digit. */
  lemma PairIsStandardIff(a: Byte, b: Byte)
    ensures HexPair(a, b) == StandardPair(a, b) <==> Utf8Pair(a, b) && !(a == PLUS && HexValue(b).Some?)
  {
  }

  /** What it reads otherwise: zero for two bytes that are not UTF-8, the one digit after a plus sign. */
  lemma OddPairs(a: Byte, b: Byte)
    ensures !((a < 0x80 && b < 0x80) || (0xC2 <= a <= 0xDF && 0x80 <= b <= 0xBF)) ==> HexPair(a, b) == Some(0)
    ensures a == '+' as int && b < 0x80 ==> HexPair(a, b) == HexValue(b)
  {
  }

  /** The escape at position `i`, if the decoder takes one there. */
  function Escape(s: seq<Byte>, i: nat): (r: Option<int>)
    requires i < |s|
    ensures r.Some? ==> 0 <= r.value < 256 && i + 2 < |s|
  {
    if s[i] == PERCENT && i + 2 < |s| then HexPair(s[i + 1], s[i + 2]) else None
  }

  function Decode(s: seq<Byte>): seq<Byte>
    decreases |s|
  {
    if s == [] then []
    else
      match Escape(s, 0)
      case Some(b) => [b] + Decode(s[3..])
      case None => [s[0]] + Decode(s[1..])
  }

  /** The characters of the decoded text have the encoded bytes as their code points. */
  lemma {:induction false} DecodeEncode(s: seq<Byte>)
    ensures Decode(Encode(s)) == s
  {
    if s != [] {
      DecodeEncode(s[1..]);
      var head, tail := EncodeByte(s[0]), Encode(s[1..]);
      assert Encode(s) == head + tail;
      if Unreserved(s[0]) {
        assert (head + tail)[1..] == tail;
      } else {
        assert (head + tail)[3..] == tail;
        assert HexPair(head[1], head[2]) == Some(s[0]) by {
          assert HexValue(HexDigit(s[0] / 16)) == Some(s[0] / 16);
          assert HexValue(HexDigit(s[0] % 16)) == Some(s[0] % 16);
        }
      }
      assert [s[0]] + s[1..] == s;
    }
  }

  /** Without a percent sign each byte becomes the character of that code point. */
  lemma {:induction false} DecodePlain(s: seq<Byte>)
    requires PERCENT !in s
    ensures Decode(s) == s
  {
    if s != [] {
      assert s[0] in s;
      DecodePlain(s[1..]);
      assert [s[0]] + s[1..] == s;
    }
  }

  /** Elsewhere an escape gives its byte, and a percent sign that starts no escape stays. */
  lemma DecodeStep(s: seq<Byte>)
    requires s != [] && s[0] == '%' as int
    ensures |s| >= 3 && HexPair(s[1], s[2]).Some? ==> Decode(s) == [HexPair(s[1], s[2]).value] + Decode(s[3..])
    ensures |s| < 3 || HexPair(s[1], s[2]).None? ==> Decode(s) == ['%' as int] + Decode(s[1..])
  {
  }

  // ---- The decoded text as bytes ----

  predicate Ascii(s: seq<Byte>) {
    forall i :: 0 <= i < |s| ==> s[i] < 0x80
  }

  /** The UTF-8 bytes of a text with the given code points. */
  function Utf8(codes: seq<Byte>): seq<Byte> {
    if codes == [] then []
    else (if codes[0] < 0x80 then [codes[0]] else [0xC0 + codes[0] / 64, 0x80 + codes[0] % 64]) + Utf8(codes[1..])
  }

  /** Code points are their own UTF-8 bytes exactly in ASCII; anything else grows. */
  lemma {:induction false} Utf8IsPlainIff(codes: seq<Byte>)
    ensures Ascii(codes) ==> Utf8(codes) == codes
    ensures !Ascii(codes) ==> |Utf8(codes)| > |codes|
  {
    if codes != [] {
      Utf8IsPlainIff(codes[1..]);
      assert codes == [codes[0]] + codes[1..];
      if Ascii(codes[1..]) && codes[0] < 0x80 {
        assert Ascii(codes) by {
          assert forall i :: 0 < i < |codes| ==> codes[i] == codes[1..][i - 1];
        }
      }
    }
  }

  /** The decoded text of an encoded one is the same text exactly when it is ASCII. */
  lemma TextRoundTripIff(s: seq<Byte>)
    ensures Utf8(Decode(Encode(s))) == s <==> Ascii(s)
  {
    DecodeEncode(s);
    Utf8IsPlainIff(s);
  }

  /** Text without a percent sign decodes to itself exactly when it is ASCII. */
  lemma PlainTextIff(s: seq<Byte>)
    requires PERCENT !in s
    ensures Utf8(Decode(s)) == s <==> Ascii(s)
  {
    DecodePlain(s);
    Utf8IsPlainIff(s);
  }

  /** "é", two bytes, comes back as the two characters "Ã©", four bytes. */
  lemma AccentIsGarbled()
    ensures Utf8(Decode(Encode([0xC3, 0xA9]))) == Utf8(Decode([0xC3, 0xA9])) == [0xC3, 0x83, 0xC2, 0xA9]
  {
    DecodeEncode([0xC3, 0xA9]);
    DecodePlain([0xC3, 0xA9]);
    assert [0xC3, 0xA9][1..] == [0xA9] && [0xA9][1..] == [];
    assert Utf8([0xA9]) == [0xC2, 0xA9];
  }

  /** Everything the encoder emits is an unreserved character or a percent sign followed by two
      upper-case hexadecimal digits, as sections 2.1 and 2.3 of RFC 3986 ask. */
  lemma {:induction false} EncodeIsClean(s: seq<Byte>, i: nat)
    requires i < |Encode(s)|
    ensures var e := Encode(s);
      || Unreserved(e[i])
      || (e[i] == PERCENT && i + 2 < |e| && IsUpperHex(e[i + 1]) && IsUpperHex(e[i + 2]))
  {
    var head, tail := EncodeByte(s[0]), Encode(s[1..]);
    assert Encode(s) == head + tail;
    if i >= |head| {
      EncodeIsClean(s[1..], i - |head|);
    }
  }

  predicate IsUpperHex(b: Byte) {
    '0' as int <= b <= '9' as int || 'A' as int <= b <= 'F' as int
  }

  lemma EncodeNext(s: seq<Byte>, i: nat, done: seq<Byte>)
    requires i < |s|
    ensures done + Encode(s[i..]) == done + EncodeByte(s[i]) + Encode(s[i + 1..])
    ensures EncodeByte(' ' as int) == [PERCENT, '2' as int, '0' as int]
  {
  }

  /** The encoder as a loop over the bytes. */
  method UrlEncoding(s: seq<Byte>) returns (result: seq<Byte>)
    ensures result == Encode(s)
  {
    result := [];
    for i := 0 to |s|
      invariant result + Encode(s[i..]) == Encode(s)
    {
      var byte := s[i];
      EncodeNext(s, i, result);
      if Unreserved(byte) {
        result := result + [byte];
      } else if byte == ' ' as int {
        result := result + [PERCENT, '2' as int, '0' as int];
      } else {
        result := result + [PERCENT, HexDigit(byte / 16), HexDigit(byte % 16)];
      }
    }
  }

  lemma DecodeNext(s: seq<Byte>, i: nat, done: seq<Byte>)
    requires i < |s|
    ensures done + Decode(s[i..]) == match Escape(s, i)
      case Some(b) => done + [b] + Decode(s[i + 3..])
      case None => done + [s[i]] + Decode(s[i + 1..])
  {
  }

  /** The decoder as a loop with a moving index. */
  method PercentDecode(s: seq<Byte>) returns (result: seq<Byte>)
    ensures result == Decode(s)
  {
    result := [];
    var i := 0;
    while i < |s|
      invariant i <= |s| && result + Decode(s[i..]) == Decode(s)
    {
      DecodeNext(s, i, result);
      var hex: Option<int> := None;
      if s[i] == PERCENT && i + 2 < |s| {
        hex := HexPair(s[i + 1], s[i + 2]);
      }
      if hex.Some? {
        result, i := result + [hex.value], i + 3;
      } else {
        result, i := result + [s[i]], i + 1;
      }
    }
  }
}
