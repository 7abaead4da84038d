/// The XOR stream cipher: every call of `process` draws a fresh keystream
/// of the input's length from the entropy source, in one fill, and XORs it
/// into the input. XOR is its own inverse, so running the ciphertext through
/// a cipher whose source has been put back to the same state decrypts it.
module Cipher {
  import opened Bytes
  import opened Entropy

  /// The number of keystream bytes the cipher keeps for display.
  const STATE_BYTES: nat := 64

  /// `bit_to_flip` applied to a copy of `data`: bit `bit_to_flip % 8` of
  /// byte `bit_to_flip / 8` is toggled when that byte exists.
  function FlipBit(data: seq<byte>, bitToFlip: nat): (r: seq<byte>)
    ensures |r| == |data|
  {
    var byteIdx := bitToFlip / 8;
    var bitIdx := bitToFlip % 8;
    if byteIdx < |data| then data[byteIdx := data[byteIdx] ^ (1 << bitIdx)] else data
  }

  /// The copy differs from `data` in bit `bit_to_flip % 8` of byte
  /// `bit_to_flip / 8`, when that byte exists, and nowhere else.
  lemma FlipBitChangesOneBit(data: seq<byte>, bitToFlip: nat)
    ensures forall j :: 0 <= j < |data| && j != bitToFlip / 8 ==> FlipBit(data, bitToFlip)[j] == data[j]
    ensures bitToFlip / 8 < |data| ==>
      forall i :: 0 <= i < 8 ==>
        (Bit(FlipBit(data, bitToFlip)[bitToFlip / 8], i) == Bit(data[bitToFlip / 8], i) <==> i != bitToFlip % 8)
  {
    if bitToFlip / 8 < |data| {
      FlipOneBit(data[bitToFlip / 8], bitToFlip % 8);
    }
  }

  /// Toggling bit `k` of a byte changes that bit and no other.
  lemma FlipOneBit(b: byte, k: nat)
    requires k < 8
    ensures forall i :: 0 <= i < 8 ==> (Bit(b ^ (1 << k), i) == Bit(b, i) <==> i != k)
    ensures PopCount(b ^ (b ^ (1 << k))) == 1
  {
    var mask: byte := 1 << k;
    assert b ^ (b ^ mask) == mask;
    MaskPopCount(k);
    forall i | 0 <= i < 8
      ensures Bit(b ^ mask, i) == Bit(b, i) <==> i != k
    {
      XorBit(b, mask, i);
      MaskBit(k, i);
    }
  }

  lemma MaskBit(k: nat, i: nat)
    requires k < 8 && i < 8
    ensures Bit(1 << k, i) == if i == k then 1 else 0
  {
  }

  lemma MaskPopCount(k: nat)
    requires k < 8
    ensures PopCount(1 << k) == 1
  {
    if k == 0 { assert (1 as byte) << k == 1; }
    else if k == 1 { assert (1 as byte) << k == 2; }
    else if k == 2 { assert (1 as byte) << k == 4; }
    else if k == 3 { assert (1 as byte) << k == 8; }
    else if k == 4 { assert (1 as byte) << k == 16; }
    else if k == 5 { assert (1 as byte) << k == 32; }
    else if k == 6 { assert (1 as byte) << k == 64; }
    else { assert (1 as byte) << k == 128; }
  }

  /// Byte strings that agree everywhere except at position `j` are as far
  /// apart as the bytes at `j`.
  lemma {:induction false} HammingDistanceAtOnePosition(a: seq<byte>, b: seq<byte>, j: nat)
    requires |a| == |b|
    requires forall i :: 0 <= i < |a| && i != j ==> a[i] == b[i]
    ensures HammingDistance(a, b) == if j < |a| then PopCount(a[j] ^ b[j]) else 0
  {
    if a != [] {
      var k := |a| - 1;
      HammingDistanceAtOnePosition(a[..k], b[..k], j);
      if k != j {
        assert a[k] == b[k];
        XorSelf(a[k]);
      }
    }
  }

  lemma XorSelf(x: byte)
    ensures PopCount(x ^ x) == 0
  {
    assert x ^ x == 0;
  }

  /// Flipping a bit that exists changes exactly one bit of the input.
  lemma FlipBitDistance(data: seq<byte>, bitToFlip: nat)
    ensures HammingDistance(data, FlipBit(data, bitToFlip)) == if bitToFlip / 8 < |data| then 1 else 0
  {
    var j := bitToFlip / 8;
    FlipBitChangesOneBit(data, bitToFlip);
    HammingDistanceAtOnePosition(data, FlipBit(data, bitToFlip), j);
    if j < |data| {
      FlipOneBit(data[j], bitToFlip % 8);
    }
  }

  /// `different_bits / total_bits * 100` is a percentage.
  lemma PercentBounds(different: nat, total: nat)
    requires 0 < total && different <= total
    ensures 0.0 <= Percent(different, total) <= 100.0
  {
    var q := different as real / total as real;
    assert q * total as real == different as real;
  }

  class StreamCipher {
    /// The source the keystream is drawn from, owned by the cipher.
    const entropy: Source
    /// The first keystream bytes of the last `process` call, at most 64.
    var state: seq<byte>
    var bytesProcessed: nat

    /// `new`: nothing processed yet, no keystream kept.
    constructor(entropy: Source)
      ensures this.entropy == entropy
      ensures state == [] && bytesProcessed == 0
    {
      this.entropy := entropy;
      state := [];
      bytesProcessed := 0;
    }

    /// `state()`: the kept keystream bytes.
    function State(): (r: seq<byte>)
      reads this
      ensures |r| == |state|
    {
      state
    }

    /// `bytes_processed()`.
    function BytesProcessed(): (r: nat)
      reads this
      ensures r == bytesProcessed
    {
      bytesProcessed
    }

    /// `process`: one fill of `|data|` keystream bytes, the first 64 of them
    /// kept, and the XOR of the input with the keystream returned.
    method Process(data: seq<byte>) returns (output: seq<byte>)
      modifies this, entropy.Target()
      ensures |output| == |data|
      ensures output == XorBytes(data, LcgStream(old(entropy.Target().state), |data|))
      ensures entropy.Target().state == LcgAdvance(old(entropy.Target().state), |data|)
      ensures state == LcgStream(old(entropy.Target().state), |data|)[..Min(STATE_BYTES, |data|)]
      ensures |state| <= STATE_BYTES && (state == [] <==> data == [])
      ensures bytesProcessed == old(bytesProcessed) + |data|
    {
      var keystream := new byte[|data|];
      entropy.FillBytes(keystream);
      state := keystream[..Min(STATE_BYTES, keystream.Length)];
      output := XorBytes(data, keystream[..]);
      bytesProcessed := bytesProcessed + |data|;
    }

    /// `reset`: forget the kept keystream, restart the byte counter and
    /// reset the source.
    method Reset()
      modifies this, entropy.Target()
      ensures state == [] && bytesProcessed == 0
      ensures entropy.Target().state == entropy.ResetState(old(entropy.Target().state))
    {
      state := [];
      bytesProcessed := 0;
      entropy.Reset();
    }

    /// `avalanche_effect`: encrypt, flip one input bit, encrypt again with
    /// the next keystream, and report the share of output bits that differ.
    method AvalancheEffect(data: seq<byte>, bitToFlip: nat) returns (percent: real)
      modifies this, entropy.Target()
      ensures data == [] ==> percent == 0.0 && unchanged(this) && unchanged(entropy.Target())
      ensures data != [] ==>
        percent == Avalanche(data, bitToFlip, old(entropy.Target().state)) &&
        entropy.Target().state == LcgAdvance(old(entropy.Target().state), 2 * |data|) &&
        state == LcgStream(LcgAdvance(old(entropy.Target().state), |data|), |data|)[..Min(STATE_BYTES, |data|)] &&
        bytesProcessed == old(bytesProcessed) + 2 * |data|
    {
      if |data| == 0 {
        return 0.0;
      }
      ghost var start := entropy.Target().state;
      var output1 := Process(data);
      ghost var middle := entropy.Target().state;
      var modifiedData := FlipBit(data, bitToFlip);
      var output2 := Process(modifiedData);
      var differentBits := CountDifferentBits(output1, output2);
      var totalBits := |output1| * 8;
      assert totalBits == 8 * |data|;
      percent := Percent(differentBits, totalBits);
      assert output1 == XorBytes(data, LcgStream(start, |data|));
      assert middle == LcgAdvance(start, |data|);
      assert output2 == XorBytes(FlipBit(data, bitToFlip), LcgStream(middle, |data|));
      LcgAdvanceTwice(start, |data|);
    }
  }

  /// Two passes of `n` steps are one pass of `2 n` steps.
  lemma LcgAdvanceTwice(s: u64, n: nat)
    ensures LcgAdvance(s, 2 * n) == LcgAdvance(LcgAdvance(s, n), n)
  {
    LcgConcatenation(s, n, n);
    assert n + n == 2 * n;
  }

  /// What `avalanche_effect` reports when the generator starts in state `s`:
  /// the share, in percent, of bits in which the encryption of `data` and
  /// the encryption of `data` with one bit flipped, under the next
  /// keystream, differ.
  function Avalanche(data: seq<byte>, bitToFlip: nat, s: u64): real
    requires data != []
  {
    var first := XorBytes(data, LcgStream(s, |data|));
    var second := XorBytes(FlipBit(data, bitToFlip), LcgStream(LcgAdvance(s, |data|), |data|));
    Percent(HammingDistance(first, second), 8 * |data|)
  }

  /// `(different_bits as f64 / total_bits as f64) * 100.0`.
  function Percent(different: nat, total: nat): real
    requires total > 0
  {
    different as real / total as real * 100.0
  }

  /// The report is a percentage.
  lemma AvalancheBounds(data: seq<byte>, bitToFlip: nat, s: u64)
    requires data != []
    ensures 0.0 <= Avalanche(data, bitToFlip, s) <= 100.0
  {
    var first := XorBytes(data, LcgStream(s, |data|));
    var second := XorBytes(FlipBit(data, bitToFlip), LcgStream(LcgAdvance(s, |data|), |data|));
    HammingDistanceBound(first, second);
    PercentBounds(HammingDistance(first, second), 8 * |data|);
    assert Avalanche(data, bitToFlip, s) == Percent(HammingDistance(first, second), 8 * |data|);
  }

  /// The counting loop of `avalanche_effect`: the popcount of the XOR of
  /// each pair of bytes, summed.
  method CountDifferentBits(a: seq<byte>, b: seq<byte>) returns (differentBits: nat)
    requires |a| == |b|
    ensures differentBits == HammingDistance(a, b)
  {
    differentBits := 0;
    var i := 0;
    while i < |a|
      invariant 0 <= i <= |a|
      invariant differentBits == HammingDistance(a[..i], b[..i])
    {
      assert a[..i + 1][..i] == a[..i];
      assert b[..i + 1][..i] == b[..i];
      var x := a[i] ^ b[i];
      differentBits := differentBits + PopCount(x);
      i := i + 1;
    }
    assert a[..i] == a && b[..i] == b;
  }

  /// Encrypt with a fresh mock, reset the cipher, and run the ciphertext
  /// through it: the plaintext comes back, and the ciphertext is the
  /// plaintext XOR the seed's keystream.
  method EncryptResetDecrypt(seed: u64, plaintext: seq<byte>) returns (ciphertext: seq<byte>, decrypted: seq<byte>)
    ensures ciphertext == XorBytes(plaintext, LcgStream(seed, |plaintext|))
    ensures decrypted == plaintext
  {
    var mock := new MockEntropy(seed);
    var cipher := new StreamCipher(Mock(mock));
    ciphertext := cipher.Process(plaintext);
    cipher.Reset();
    decrypted := cipher.Process(ciphertext);
    XorBytesInvolution(plaintext, LcgStream(seed, |plaintext|));
  }

  /// Two ciphers over mocks with the same seed produce the same ciphertext.
  method SameSeedSameCiphertext(seed: u64, plaintext: seq<byte>) returns (first: seq<byte>, second: seq<byte>)
    ensures first == second == XorBytes(plaintext, LcgStream(seed, |plaintext|))
  {
    var mock1 := new MockEntropy(seed);
    var mock2 := new MockEntropy(seed);
    var cipher1 := new StreamCipher(Mock(mock1));
    var cipher2 := new StreamCipher(Mock(mock2));
    first := cipher1.Process(plaintext);
    second := cipher2.Process(plaintext);
  }

  /// Two calls of `process` add up their lengths in `bytes_processed`, and
  /// their keystreams are consecutive pieces of one stream.
  method ProcessTwice(seed: u64, a: seq<byte>, b: seq<byte>) returns (count: nat, outputs: seq<byte>)
    ensures count == |a| + |b|
    ensures outputs == XorBytes(a + b, LcgStream(seed, |a| + |b|))
  {
    var mock := new MockEntropy(seed);
    var cipher := new StreamCipher(Mock(mock));
    var outA := cipher.Process(a);
    var outB := cipher.Process(b);
    count := cipher.BytesProcessed();
    outputs := outA + outB;
    LcgConcatenation(seed, |a|, |b|);
  }
}
