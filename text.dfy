/// Text as the learning views see it: a Rust `&str` is a sequence of
/// Unicode scalar values stored as UTF-8, so `text.len()` and `as_bytes()`
/// count and give the encoded bytes, while `chars()` gives the scalar values.
/// A Dafny `string` is the sequence of scalar values; `Utf8` is the byte
/// view.
module Text {
  import opened Bytes

  /// How many bytes UTF-8 spends on a scalar value (section 3 of RFC 3629).
  function Utf8Width(c: char): (w: nat)
    ensures 1 <= w <= 4
  {
    var cp := c as int;
    if cp < 0x80 then 1 else if cp < 0x800 then 2 else if cp < 0x1_0000 then 3 else 4
  }

  /// The UTF-8 encoding of one scalar value: a lead byte carrying the top
  /// bits and continuation bytes `10xxxxxx` carrying six bits each.
  function EncodeChar(c: char): (r: seq<byte>)
    ensures |r| == Utf8Width(c)
  {
    var cp := c as int;
    if cp < 0x80 then [ToByte(cp)]
    else if cp < 0x800 then EncodeTwo(cp)
    else if cp < 0x1_0000 then EncodeThree(cp)
    else EncodeFour(cp)
  }

  /// `110xxxxx 10xxxxxx`.
  function EncodeTwo(cp: int): (r: seq<byte>)
    requires 0x80 <= cp < 0x800
    ensures |r| == 2
  {
    [ToByte(0xC0 + cp / 0x40), ToByte(0x80 + cp % 0x40)]
  }

  /// `1110xxxx 10xxxxxx 10xxxxxx`.
  function EncodeThree(cp: int): (r: seq<byte>)
    requires 0x800 <= cp < 0x1_0000
    ensures |r| == 3
  {
    var t := cp / 0x40;
    [ToByte(0xE0 + t / 0x40), ToByte(0x80 + t % 0x40), ToByte(0x80 + cp % 0x40)]
  }

  /// `11110xxx 10xxxxxx 10xxxxxx 10xxxxxx`.
  function EncodeFour(cp: int): (r: seq<byte>)
    requires 0x1_0000 <= cp < 0x11_0000
    ensures |r| == 4
  {
    var t := cp / 0x40;
    var u := t / 0x40;
    [ToByte(0xF0 + u / 0x40), ToByte(0x80 + u % 0x40), ToByte(0x80 + t % 0x40), ToByte(0x80 + cp % 0x40)]
  }

  /// `text.as_bytes()`.
  function Utf8(s: string): (r: seq<byte>)
  {
    if s == [] then [] else Utf8(s[..|s| - 1]) + EncodeChar(s[|s| - 1])
  }

  /// A continuation byte, `10xxxxxx`.
  predicate Continuation(b: byte)
  {
    0x80 <= b as int < 0xC0
  }

  /// The encoding of a scalar value is well formed: its lead byte announces
  /// its width and every further byte is a continuation byte, and the value
  /// is recovered from the payload bits.
  lemma EncodeCharWellFormed(c: char)
    ensures WellFormedChar(EncodeChar(c))
    ensures DecodeChar(EncodeChar(c)) == c as int
  {
    var cp := c as int;
    if cp < 0x80 {
    } else if cp < 0x800 {
      EncodeTwoWellFormed(cp);
    } else if cp < 0x1_0000 {
      EncodeThreeWellFormed(cp);
    } else {
      assert cp < 0x11_0000;
      EncodeFourWellFormed(cp);
    }
  }

  /// The lead byte announces the width and the other bytes are continuation bytes.
  predicate WellFormedChar(r: seq<byte>)
  {
    1 <= |r| <= 4 &&
    (|r| == 1 <==> r[0] as int < 0x80) &&
    (|r| == 2 <==> 0xC0 <= r[0] as int < 0xE0) &&
    (|r| == 3 <==> 0xE0 <= r[0] as int < 0xF0) &&
    (|r| == 4 <==> 0xF0 <= r[0] as int < 0xF8) &&
    (forall i :: 1 <= i < |r| ==> Continuation(r[i]))
  }

  lemma EncodeTwoWellFormed(cp: int)
    requires 0x80 <= cp < 0x800
    ensures WellFormedChar(EncodeTwo(cp)) && DecodeChar(EncodeTwo(cp)) == cp
  {
    Div64(cp, cp / 0x40, cp % 0x40);
  }

  lemma EncodeThreeWellFormed(cp: int)
    requires 0x800 <= cp < 0x1_0000
    ensures WellFormedChar(EncodeThree(cp)) && DecodeChar(EncodeThree(cp)) == cp
  {
    var high, mid, low := ThreePieces(cp);
    ThreeBytes(high, mid, low);
  }

  lemma ThreeBytes(high: int, mid: int, low: int)
    requires 0 <= high < 0x10 && 0 <= mid < 0x40 && 0 <= low < 0x40
    ensures var r := [ToByte(0xE0 + high), ToByte(0x80 + mid), ToByte(0x80 + low)];
      WellFormedChar(r) && DecodeChar(r) == (high * 0x40 + mid) * 0x40 + low
  {
  }

  /// The two payload groups and the top bits of a three-byte scalar value.
  lemma ThreePieces(cp: int) returns (high: int, mid: int, low: int)
    requires 0x800 <= cp < 0x1_0000
    ensures 0 <= high < 0x10 && 0 <= mid < 0x40 && 0 <= low < 0x40
    ensures cp == (high * 0x40 + mid) * 0x40 + low
    ensures EncodeThree(cp) == [ToByte(0xE0 + high), ToByte(0x80 + mid), ToByte(0x80 + low)]
  {
    var t;
    low, t := cp % 0x40, cp / 0x40;
    mid, high := t % 0x40, t / 0x40;
    Div64(cp, t, low);
    Div64(t, high, mid);
  }

  lemma EncodeFourWellFormed(cp: int)
    requires 0x1_0000 <= cp < 0x11_0000
    ensures WellFormedChar(EncodeFour(cp)) && DecodeChar(EncodeFour(cp)) == cp
  {
    var high, upper, mid, low := FourPieces(cp);
    FourBytes(high, upper, mid, low);
  }

  /// The three payload groups and the top bits of a four-byte scalar value.
  lemma FourPieces(cp: int) returns (high: int, upper: int, mid: int, low: int)
    requires 0x1_0000 <= cp < 0x11_0000
    ensures 0 <= high < 8 && 0 <= upper < 0x40 && 0 <= mid < 0x40 && 0 <= low < 0x40
    ensures cp == ((high * 0x40 + upper) * 0x40 + mid) * 0x40 + low
    ensures EncodeFour(cp) == [ToByte(0xF0 + high), ToByte(0x80 + upper), ToByte(0x80 + mid), ToByte(0x80 + low)]
  {
    var t, u;
    low, t := cp % 0x40, cp / 0x40;
    mid, u := t % 0x40, t / 0x40;
    upper, high := u % 0x40, u / 0x40;
    Div64(cp, t, low);
    Div64(t, u, mid);
    Div64(u, high, upper);
  }

  lemma FourBytes(high: int, upper: int, mid: int, low: int)
    requires 0 <= high < 8 && 0 <= upper < 0x40 && 0 <= mid < 0x40 && 0 <= low < 0x40
    ensures var r := [ToByte(0xF0 + high), ToByte(0x80 + upper), ToByte(0x80 + mid), ToByte(0x80 + low)];
      WellFormedChar(r) && DecodeChar(r) == ((high * 0x40 + upper) * 0x40 + mid) * 0x40 + low
  {
  }

  /// Euclidean division by 64 is determined by quotient and remainder.
  lemma Div64(x: int, q: int, r: int)
    requires x == q * 0x40 + r && 0 <= r < 0x40
    ensures x / 0x40 == q && x % 0x40 == r
  {
  }

  /// Reads back the scalar value from a well-formed encoding of one character.
  function DecodeChar(r: seq<byte>): int
    requires 1 <= |r| <= 4
  {
    if |r| == 1 then r[0] as int
    else if |r| == 2 then (r[0] as int - 0xC0) * 0x40 + (r[1] as int - 0x80)
    else if |r| == 3 then
      ((r[0] as int - 0xE0) * 0x40 + (r[1] as int - 0x80)) * 0x40 + (r[2] as int - 0x80)
    else
      (((r[0] as int - 0xF0) * 0x40 + (r[1] as int - 0x80)) * 0x40 + (r[2] as int - 0x80)) * 0x40
        + (r[3] as int - 0x80)
  }

  /// The byte length is at least the number of characters, each character
  /// taking one to four bytes, and only the empty text has no bytes.
  lemma {:induction false} Utf8Length(s: string)
    ensures |s| <= |Utf8(s)| <= 4 * |s|
    ensures Utf8(s) == [] <==> s == []
  {
    if s != [] {
      Utf8Length(s[..|s| - 1]);
    }
  }

  predicate IsAscii(s: string)
  {
    forall i :: 0 <= i < |s| ==> s[i] as int < 0x80
  }

  /// ASCII text is its own encoding, one byte per character.
  lemma {:induction false} Utf8OfAscii(s: string)
    requires IsAscii(s)
    ensures |Utf8(s)| == |s|
    ensures forall i :: 0 <= i < |s| ==> Utf8(s)[i] as int == s[i] as int
  {
    if s != [] {
      Utf8OfAscii(s[..|s| - 1]);
    }
  }
}
