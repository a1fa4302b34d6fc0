/** UTF-8 as in section 3 of RFC 3629: strings are byte sequences, and []rune(s)
    and string(r) convert between bytes and code points. */
module Utf8 {
  import opened Sequences

  type byte = b: int | 0 <= b < 0x100

  /** A Unicode scalar value. */
  type Rune = r: int | 0 <= r < 0xD800 || 0xE000 <= r < 0x11_0000

  function EncodeRune(r: Rune): (bytes: seq<byte>)
    ensures 1 <= |bytes| <= 4
  {
    if r < 0x80 then [r]
    else if r < 0x800 then [0xC0 + r / 0x40, 0x80 + r % 0x40]
    else if r < 0x1_0000 then [0xE0 + r / 0x1000, 0x80 + r / 0x40 % 0x40, 0x80 + r % 0x40]
    else [0xF0 + r / 0x4_0000, 0x80 + r / 0x1000 % 0x40, 0x80 + r / 0x40 % 0x40, 0x80 + r % 0x40]
  }

  /** One byte up to 0x7F; else a lead byte that tells the length, and continuation bytes. */
  lemma {:induction false} EncodedBytes(r: Rune)
    ensures var bytes := EncodeRune(r);
      && (|bytes| == 1 <==> r < 0x80) && (|bytes| <= 2 <==> r < 0x800) && (|bytes| <= 3 <==> r < 0x1_0000)
      && (|bytes| == 1 ==> bytes[0] == r)
      && (|bytes| == 2 ==> 0xC0 <= bytes[0] < 0xE0) && (|bytes| == 3 ==> 0xE0 <= bytes[0] < 0xF0)
      && (|bytes| == 4 ==> 0xF0 <= bytes[0] < 0xF8)
      && forall i | 1 <= i < |bytes| :: 0x80 <= bytes[i] < 0xC0
  {
  }

  function Encode(runes: seq<Rune>): seq<byte> {
    if runes == [] then [] else EncodeRune(runes[0]) + Encode(runes[1..])
  }

  /** The six bits of a continuation byte. */
  function Tail(b: byte): int {
    (b as int) - 0x80
  }

  /** The code point at the front of nonempty text; the replacement character and
      one byte where the text is malformed. */
  function DecodeRune(text: seq<byte>): (d: (Rune, nat))
    requires text != []
    ensures 1 <= d.1 <= |text|
  {
    var b: int := text[0];
    var width: nat := if b < 0xC0 then 1 else if b < 0xE0 then 2 else if b < 0xF0 then 3 else 4;
    if width > |text| then (0xFFFD, 1)
    else
      var r: int := if width == 1 then b
               else if width == 2 then (b - 0xC0) * 0x40 + Tail(text[1])
               else if width == 3 then (b - 0xE0) * 0x1000 + Tail(text[1]) * 0x40 + Tail(text[2])
               else (b - 0xF0) * 0x4_0000 + Tail(text[1]) * 0x1000 + Tail(text[2]) * 0x40 + Tail(text[3]);
      if (0 <= r < 0xD800 || 0xE000 <= r < 0x11_0000) then (r, width) else (0xFFFD, 1)
  }

  function Decode(text: seq<byte>): seq<Rune> {
    if text == [] then []
    else
      var (r, width) := DecodeRune(text);
      [r] + Decode(text[width..])
  }

  ghost predicate ValidUtf8(text: seq<byte>) {
    exists runes: seq<Rune> :: text == Encode(runes)
  }

  /** The base-64 digits of a code point. */
  lemma Digits(r: int)
    requires r >= 0
    ensures r == r / 0x40 * 0x40 + r % 0x40
    ensures r / 0x40 == r / 0x1000 * 0x40 + r / 0x40 % 0x40
    ensures r / 0x1000 == r / 0x4_0000 * 0x40 + r / 0x1000 % 0x40
  {
  }

  lemma {:induction false} DecodeShort(r: Rune, text: seq<byte>)
    requires r < 0x800 && |EncodeRune(r)| <= |text| && text[..|EncodeRune(r)|] == EncodeRune(r)
    ensures DecodeRune(text) == (r, |EncodeRune(r)|)
  {
    var bytes := EncodeRune(r);
    assert forall i | 0 <= i < |bytes| :: text[i] == text[..|bytes|][i];
  }

  lemma {:induction false} DecodeThree(r: Rune, text: seq<byte>)
    requires 0x800 <= r < 0x1_0000 && |text| >= 3 && text[..3] == EncodeRune(r)
    ensures DecodeRune(text) == (r, 3)
  {
    Digits(r);
    assert text[0] == EncodeRune(r)[0] && text[1] == EncodeRune(r)[1] && text[2] == EncodeRune(r)[2];
  }

  lemma {:induction false} DecodeFour(r: Rune, text: seq<byte>)
    requires r >= 0x1_0000 && |text| >= 4 && text[..4] == EncodeRune(r)
    ensures DecodeRune(text) == (r, 4)
  {
    Digits(r);
    assert text[0] == EncodeRune(r)[0] && text[1] == EncodeRune(r)[1];
    assert text[2] == EncodeRune(r)[2] && text[3] == EncodeRune(r)[3];
  }

  lemma {:induction false} DecodeFirst(r: Rune, rest: seq<byte>)
    ensures DecodeRune(EncodeRune(r) + rest) == (r, |EncodeRune(r)|)
  {
    var bytes := EncodeRune(r);
    assert (bytes + rest)[..|bytes|] == bytes;
    if r < 0x800 {
      DecodeShort(r, bytes + rest);
    } else if r < 0x1_0000 {
      DecodeThree(r, bytes + rest);
    } else {
      DecodeFour(r, bytes + rest);
    }
  }

  lemma {:induction false} DecodeEncode(runes: seq<Rune>)
    ensures Decode(Encode(runes)) == runes
  {
    if runes != [] {
      var first, rest := EncodeRune(runes[0]), Encode(runes[1..]);
      DecodeFirst(runes[0], rest);
      DecodeEncode(runes[1..]);
      assert (first + rest)[|first|..] == rest;
      assert Encode(runes) == first + rest;
    }
  }

  lemma EncodeDecode(text: seq<byte>)
    requires ValidUtf8(text)
    ensures Encode(Decode(text)) == text
  {
    var runes: seq<Rune> :| text == Encode(runes);
    DecodeEncode(runes);
  }

  lemma {:induction false} EncodeConcat(a: seq<Rune>, b: seq<Rune>)
    ensures Encode(a + b) == Encode(a) + Encode(b)
  {
    if a == [] {
      assert a + b == b;
    } else {
      EncodeConcat(a[1..], b);
      assert (a + b)[0] == a[0] && (a + b)[1..] == a[1..] + b;
      Assoc(EncodeRune(a[0]), Encode(a[1..]), Encode(b));
    }
  }

  lemma EncodeSnoc(a: seq<Rune>, r: Rune)
    ensures |Encode(a + [r])| == |Encode(a)| + |EncodeRune(r)|
  {
    EncodeConcat(a, [r]);
    assert Encode([r]) == EncodeRune(r) + Encode([]);
  }

  /** The bytes of a run of code points. */
  lemma EncodeSlice(runes: seq<Rune>, s: nat, e: nat)
    requires s <= e <= |runes|
    ensures var start, length := |Encode(runes[..s])|, |Encode(runes[s..e])|;
            start + length <= |Encode(runes)| && Encode(runes)[start..start + length] == Encode(runes[s..e])
  {
    var x, y, z := runes[..s], runes[s..e], runes[e..];
    assert x + y == runes[..e] && x + y + z == runes;
    EncodeConcat(x + y, z);
    EncodeConcat(x, y);
    assert (Encode(x) + Encode(y) + Encode(z))[|Encode(x)|..|Encode(x)| + |Encode(y)|] == Encode(y);
  }

  // ----- Single-byte text -----

  predicate SingleByte(text: seq<byte>) {
    forall i | 0 <= i < |text| :: text[i] < 0x80
  }

  /** Single-byte text is its own sequence of code points. */
  lemma {:induction false} SingleByteDecode(text: seq<byte>)
    requires SingleByte(text)
    ensures |Decode(text)| == |text| && forall i | 0 <= i < |text| :: Decode(text)[i] == text[i]
    ensures Encode(Decode(text)) == text
  {
    if text != [] {
      SingleByteDecode(text[1..]);
      assert text == [text[0]] + text[1..];
    }
  }

  lemma {:induction false} SingleByteWidth(runes: seq<Rune>)
    requires forall i | 0 <= i < |runes| :: runes[i] < 0x80
    ensures |Encode(runes)| == |runes|
  {
    if runes != [] {
      SingleByteWidth(runes[1..]);
    }
  }
}
