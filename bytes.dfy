/// Bit and byte statistics primitives shared by the test battery, the
/// descriptive metrics, the cipher and the learning visualisations: bit
/// expansion of a byte sample (least- or most-significant bit first), counting
/// of ones, value occurrences, byte sums and byte-wise XOR.
module Bytes {

  type byte = bv8

  function Min(a: int, b: int): int { if a <= b then a else b }
  function Max(a: int, b: int): int { if a >= b then a else b }

  /// An integer in `0..255` as a byte.
  function ToByte(x: int): (b: byte)
    requires 0 <= x < 256
    ensures b as int == x
  {
    x as byte
  }

  /// Bytes with the same numeric value are equal.
  lemma SameValue(a: byte, b: byte)
    requires a as int == b as int
    ensures a == b
  {
    assert a == ToByte(a as int) && b == ToByte(b as int);
  }

  /// Bit `i` of `b`, counting from the least-significant bit: `(b >> i) & 1`.
  function Bit(b: byte, i: nat): (r: nat)
    requires i < 8
    ensures r <= 1
  {
    if (b >> i) & 1 == 1 then 1 else 0
  }

  /// Number of one bits of a byte (`count_ones`).
  function PopCount(b: byte): (r: nat)
    ensures r <= 8
  {
    Bit(b, 0) + Bit(b, 1) + Bit(b, 2) + Bit(b, 3) + Bit(b, 4) + Bit(b, 5) + Bit(b, 6) + Bit(b, 7)
  }

  /// `k` copies of the byte `b`.
  function Repeat(b: byte, k: nat): (r: seq<byte>)
    ensures |r| == k
  {
    seq(k, _ => b)
  }

  /// The bits of every byte, least-significant bit of each byte first
  /// (`flat_map(|byte| (0..8).map(|i| (byte >> i) & 1))`).
  function LsbBits(data: seq<byte>): (bits: seq<nat>)
    ensures |bits| == 8 * |data|
  {
    seq(8 * |data|, k requires 0 <= k < 8 * |data| => Bit(data[k / 8], k % 8))
  }

  /// The bits of every byte, most-significant bit of each byte first.
  function MsbBits(data: seq<byte>): (bits: seq<nat>)
    ensures |bits| == 8 * |data|
  {
    seq(8 * |data|, k requires 0 <= k < 8 * |data| => Bit(data[k / 8], 7 - k % 8))
  }

  /// True when every element of `s` is a bit.
  predicate IsBitString(s: seq<nat>)
  {
    forall k :: 0 <= k < |s| ==> s[k] <= 1
  }

  /// Number of elements equal to 1.
  function Ones(s: seq<nat>): (r: nat)
    ensures r <= |s|
  {
    if s == [] then 0 else Ones(s[..|s| - 1]) + (if s[|s| - 1] == 1 then 1 else 0)
  }

  /// Total number of one bits in a byte sample.
  function OnesInBytes(data: seq<byte>): nat
  {
    if data == [] then 0 else OnesInBytes(data[..|data| - 1]) + PopCount(data[|data| - 1])
  }

  /// Number of positions of `s` holding `v`.
  function Count(s: seq<int>, v: int): (r: nat)
    ensures r <= |s|
  {
    if s == [] then 0 else Count(s[..|s| - 1], v) + (if s[|s| - 1] == v then 1 else 0)
  }

  /// `Count(s, 0) + Count(s, 1) + ... + Count(s, k - 1)`: the sum of a table
  /// of `k` buckets indexed by value.
  function CountsBelow(s: seq<int>, k: nat): nat
  {
    if k == 0 then 0 else CountsBelow(s, k - 1) + Count(s, k - 1)
  }

  /// The byte values as integers (`byte as usize`).
  function Values(data: seq<byte>): (r: seq<int>)
    ensures |r| == |data|
    ensures forall i :: 0 <= i < |data| ==> 0 <= r[i] < 256
  {
    seq(|data|, i requires 0 <= i < |data| => data[i] as int)
  }

  /// Number of occurrences of byte value `v` in a sample.
  function Occurrences(data: seq<byte>, v: int): nat
  {
    Count(Values(data), v)
  }

  /// Sum of the byte values of a sample.
  function Sum(data: seq<byte>): int
  {
    if data == [] then 0 else Sum(data[..|data| - 1]) + data[|data| - 1] as int
  }

  /// `data[i] ^ key[i]` for every position of `data` (a zip of the two).
  function XorBytes(data: seq<byte>, key: seq<byte>): (r: seq<byte>)
    requires |data| <= |key|
    ensures |r| == |data|
  {
    seq(|data|, i requires 0 <= i < |data| => data[i] ^ key[i])
  }

  /// Number of bit positions in which two equally long byte strings differ.
  function HammingDistance(a: seq<byte>, b: seq<byte>): nat
    requires |a| == |b|
  {
    if a == [] then 0
    else HammingDistance(a[..|a| - 1], b[..|b| - 1]) + PopCount(a[|a| - 1] ^ b[|b| - 1])
  }

  // ---------------------------------------------------------------------
  // Lemmas
  // ---------------------------------------------------------------------

  /// Both expansions produce exactly the bits of the bytes: 8 per byte, each 0 or 1,
  /// at the positions the two orders prescribe.
  lemma BitExpansions(data: seq<byte>, j: nat, i: nat)
    requires j < |data| && i < 8
    ensures |LsbBits(data)| == |MsbBits(data)| == 8 * |data|
    ensures IsBitString(LsbBits(data)) && IsBitString(MsbBits(data))
    ensures LsbBits(data)[8 * j + i] == Bit(data[j], i)
    ensures MsbBits(data)[8 * j + i] == Bit(data[j], 7 - i)
  {
  }

  lemma {:induction false} OnesAppend(s: seq<nat>, t: seq<nat>)
    ensures Ones(s + t) == Ones(s) + Ones(t)
  {
    if t == [] {
      assert s + t == s;
    } else {
      assert (s + t)[..|s + t| - 1] == s + t[..|t| - 1];
      OnesAppend(s, t[..|t| - 1]);
    }
  }

  lemma LsbBitsSnoc(data: seq<byte>, b: byte)
    ensures LsbBits(data + [b]) == LsbBits(data) + LsbBits([b])
  {
  }

  lemma MsbBitsSnoc(data: seq<byte>, b: byte)
    ensures MsbBits(data + [b]) == MsbBits(data) + MsbBits([b])
  {
  }

  lemma OnesPrefixStep(s: seq<nat>, k: nat)
    requires k < |s|
    ensures Ones(s[..k + 1]) == Ones(s[..k]) + (if s[k] == 1 then 1 else 0)
  {
    assert s[..k + 1][..k] == s[..k];
  }

  /// `s[0] + ... + s[k - 1]`.
  function SumFirst(s: seq<nat>, k: nat): nat
    requires k <= |s|
  {
    if k == 0 then 0 else SumFirst(s, k - 1) + s[k - 1]
  }

  lemma {:induction false} OnesIsSumOfBits(s: seq<nat>, k: nat)
    requires k <= |s| && IsBitString(s)
    ensures Ones(s[..k]) == SumFirst(s, k)
  {
    if k > 0 {
      OnesIsSumOfBits(s, k - 1);
      OnesPrefixStep(s, k - 1);
    }
  }

  lemma OnesOfEight(s: seq<nat>)
    requires |s| == 8 && IsBitString(s)
    ensures Ones(s) == s[0] + s[1] + s[2] + s[3] + s[4] + s[5] + s[6] + s[7]
  {
    assert s == s[..8];
    OnesIsSumOfBits(s, 8);
    assert SumFirst(s, 8) == SumFirst(s, 7) + s[7];
    assert SumFirst(s, 7) == SumFirst(s, 6) + s[6];
    assert SumFirst(s, 6) == SumFirst(s, 5) + s[5];
    assert SumFirst(s, 5) == SumFirst(s, 4) + s[4];
    assert SumFirst(s, 4) == SumFirst(s, 3) + s[3];
    assert SumFirst(s, 3) == SumFirst(s, 2) + s[2];
    assert SumFirst(s, 2) == SumFirst(s, 1) + s[1];
    assert SumFirst(s, 1) == s[0];
  }

  lemma OnesOfOneByte(b: byte)
    ensures Ones(LsbBits([b])) == PopCount(b)
    ensures Ones(MsbBits([b])) == PopCount(b)
  {
    OnesOfEight(LsbBits([b]));
    OnesOfEight(MsbBits([b]));
  }

  /// The number of ones in either bit expansion is the total popcount of the
  /// bytes: bit order within a byte does not change how many ones there are.
  lemma {:induction false} OnesInExpansions(data: seq<byte>)
    ensures Ones(LsbBits(data)) == OnesInBytes(data)
    ensures Ones(MsbBits(data)) == OnesInBytes(data)
  {
    if data != [] {
      var init, last := data[..|data| - 1], data[|data| - 1];
      assert data == init + [last];
      OnesInExpansions(init);
      LsbBitsSnoc(init, last);
      MsbBitsSnoc(init, last);
      OnesAppend(LsbBits(init), LsbBits([last]));
      OnesAppend(MsbBits(init), MsbBits([last]));
      OnesOfOneByte(last);
    }
  }

  lemma {:induction false} CountAppend(s: seq<int>, t: seq<int>, v: int)
    ensures Count(s + t, v) == Count(s, v) + Count(t, v)
  {
    if t == [] {
      assert s + t == s;
    } else {
      assert (s + t)[..|s + t| - 1] == s + t[..|t| - 1];
      CountAppend(s, t[..|t| - 1], v);
    }
  }

  lemma {:induction false} CountsBelowSnoc(s: seq<int>, x: int, k: nat)
    ensures CountsBelow(s + [x], k) == CountsBelow(s, k) + (if 0 <= x < k then 1 else 0)
  {
    if k > 0 {
      CountsBelowSnoc(s, x, k - 1);
      assert (s + [x])[..|s + [x]| - 1] == s;
    }
  }

  /// A table of `k` buckets counting a sequence whose values all lie in
  /// `0..k` adds up to the length of the sequence.
  lemma {:induction false} CountsBelowTotal(s: seq<int>, k: nat)
    requires forall i :: 0 <= i < |s| ==> 0 <= s[i] < k
    ensures CountsBelow(s, k) == |s|
  {
    if s == [] {
      CountsBelowEmpty(k);
    } else {
      var init := s[..|s| - 1];
      assert s == init + [s[|s| - 1]];
      CountsBelowTotal(init, k);
      CountsBelowSnoc(init, s[|s| - 1], k);
    }
  }

  lemma {:induction false} CountsBelowEmpty(k: nat)
    ensures CountsBelow([], k) == 0
  {
    if k > 0 {
      CountsBelowEmpty(k - 1);
    }
  }

  /// Every byte value lies in `0..256`, so the 256 occurrence counts of a
  /// sample add up to its length.
  lemma OccurrencesTotal(data: seq<byte>)
    ensures CountsBelow(Values(data), 256) == |data|
  {
    CountsBelowTotal(Values(data), 256);
  }

  /// A value occurs in a sample exactly when its count is positive.
  lemma {:induction false} CountPositive(s: seq<int>, v: int)
    ensures Count(s, v) > 0 <==> v in s
  {
    if s != [] {
      var init := s[..|s| - 1];
      assert s == init + [s[|s| - 1]];
      CountPositive(init, v);
    }
  }

  /// The byte values sum to at most 255 per byte.
  lemma {:induction false} SumBounds(data: seq<byte>)
    ensures 0 <= Sum(data) <= 255 * |data|
  {
    if data != [] {
      SumBounds(data[..|data| - 1]);
    }
  }

  /// XOR with the same key twice gives back the data.
  lemma XorBytesInvolution(data: seq<byte>, key: seq<byte>)
    requires |data| <= |key|
    ensures XorBytes(XorBytes(data, key), key) == data
  {
    forall i | 0 <= i < |data|
      ensures XorBytes(XorBytes(data, key), key)[i] == data[i]
    {
      XorTwice(data[i], key[i]);
    }
  }

  lemma XorTwice(a: byte, k: byte)
    ensures (a ^ k) ^ k == a
  {
  }

  /// Bit `i` of an XOR is the XOR of the bits.
  lemma XorBit(a: byte, b: byte, i: nat)
    requires i < 8
    ensures Bit(a ^ b, i) == (Bit(a, i) + Bit(b, i)) % 2
  {
  }

  /// Two byte strings of `n` bytes differ in at most `8 n` bits.
  lemma {:induction false} HammingDistanceBound(a: seq<byte>, b: seq<byte>)
    requires |a| == |b|
    ensures HammingDistance(a, b) <= 8 * |a|
  {
    if a != [] {
      HammingDistanceBound(a[..|a| - 1], b[..|b| - 1]);
    }
  }
}
