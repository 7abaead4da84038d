/// The entropy-source contract and the deterministic mock source.
///
/// The `EntropySource` trait has one required member, `fill_bytes`, and
/// default members `next_byte`, `next_u32`, `next_u64`, `name` and `reset`
/// built on it. Its implementations in the core are `MockEntropy` and the two
/// forwarding implementations for `Box<dyn EntropySource>` and `&mut T`; they
/// are the three constructors of `Source`, and every source is a chain of
/// forwarders ending in one `MockEntropy` object.
module Entropy {
  import opened Bytes

  const TWO_32: int := 0x1_0000_0000
  const TWO_64: int := 0x1_0000_0000_0000_0000

  type u32 = x: int | 0 <= x < TWO_32
  type u64 = x: int | 0 <= x < TWO_64

  /// The glibc LCG constants the mock uses.
  const LCG_MULTIPLIER: int := 1103515245
  const LCG_INCREMENT: int := 12345

  /// The seed of `MockEntropy::default()`.
  const DEFAULT_SEED: u64 := 42

  const MOCK_NAME: string := "Mock RNG (for testing only)"

  /// What the trait's default `name` returns. No source of this model uses
  /// it: the mock overrides `name` and both forwarders forward it.
  const DEFAULT_NAME: string := "Unknown Source"

  /// One generator step, `state.wrapping_mul(1103515245).wrapping_add(12345)`:
  /// both operations wrap modulo 2^64.
  function LcgStep(s: u64): u64
  {
    ((s * LCG_MULTIPLIER) % TWO_64 + LCG_INCREMENT) % TWO_64
  }

  /// The byte `next` returns after stepping to state `s`: `(s >> 24) as u8`,
  /// that is bits 24 to 31 of the state.
  function LcgOutput(s: u64): byte
  {
    ToByte((s / 0x100_0000) % 256)
  }

  /// The state reached after `n` steps from `s`.
  function LcgAdvance(s: u64, n: nat): u64
  {
    if n == 0 then s else LcgStep(LcgAdvance(s, n - 1))
  }

  /// The `n` bytes that `n` successive calls of `next` return, starting in state `s`.
  function LcgStream(s: u64, n: nat): (r: seq<byte>)
    ensures |r| == n
  {
    if n == 0 then [] else LcgStream(s, n - 1) + [LcgOutput(LcgAdvance(s, n))]
  }

  /// The two wrapping operations of a step amount to one affine map modulo 2^64.
  lemma LcgStepIsAffine(s: u64)
    ensures LcgStep(s) == (s * LCG_MULTIPLIER + LCG_INCREMENT) % TWO_64
  {
    var p := s * LCG_MULTIPLIER;
    var q, r := p / TWO_64, p % TWO_64;
    assert p == q * TWO_64 + r;
    assert p + LCG_INCREMENT == q * TWO_64 + (r + LCG_INCREMENT);
  }

  /// Drawing `n` bytes and then `m` more yields the same bytes, and the same
  /// final state, as drawing `n + m` bytes at once.
  lemma {:induction false} LcgConcatenation(s: u64, n: nat, m: nat)
    ensures LcgAdvance(s, n + m) == LcgAdvance(LcgAdvance(s, n), m)
    ensures LcgStream(s, n + m) == LcgStream(s, n) + LcgStream(LcgAdvance(s, n), m)
  {
    if m > 0 {
      LcgConcatenation(s, n, m - 1);
    }
  }

  /// The deterministic source: a 64-bit linear congruential generator that
  /// remembers its seed so that it can start over.
  class MockEntropy {
    var state: u64
    const initialState: u64

    /// `MockEntropy::new(seed)`.
    constructor (seed: u64)
      ensures state == seed && initialState == seed
    {
      state := seed;
      initialState := seed;
    }

    /// `MockEntropy::default()`, the seed 42.
    constructor Default()
      ensures state == DEFAULT_SEED && initialState == DEFAULT_SEED
    {
      state := DEFAULT_SEED;
      initialState := DEFAULT_SEED;
    }

    /// Steps the generator and returns bits 24 to 31 of the new state.
    method Next() returns (b: byte)
      modifies this
      ensures state == LcgStep(old(state))
      ensures b == LcgOutput(state)
    {
      state := LcgStep(state);
      b := LcgOutput(state);
    }

    /// Overwrites every position of `dest`, in index order, with successive
    /// outputs of `Next`.
    method FillBytes(dest: array<byte>)
      modifies this, dest
      ensures dest[..] == LcgStream(old(state), dest.Length)
      ensures state == LcgAdvance(old(state), dest.Length)
    {
      var i := 0;
      while i < dest.Length
        invariant 0 <= i <= dest.Length
        invariant dest[..i] == LcgStream(old(state), i)
        invariant state == LcgAdvance(old(state), i)
      {
        var b := Next();
        dest[i] := b;
        assert dest[..i + 1] == dest[..i] + [b];
        i := i + 1;
      }
      assert dest[..] == dest[..dest.Length];
    }

    function Name(): string
    {
      MOCK_NAME
    }

    /// Returns the generator to its seed.
    method Reset()
      modifies this
      ensures state == initialState
    {
      state := initialState;
    }
  }

  /// A value implementing `EntropySource`: the mock itself, a
  /// `Box<dyn EntropySource>` around a source, or a `&mut` borrow of one.
  datatype Source = Mock(mock: MockEntropy) | Boxed(inner: Source) | Borrowed(inner: Source)
  {
    /// The mock at the end of the forwarding chain: the only object that
    /// filling or resetting can change.
    function Target(): MockEntropy
    {
      match this
      case Mock(m) => m
      case Boxed(i) => i.Target()
      case Borrowed(i) => i.Target()
    }

    /// `name`: the mock's own name; both forwarders return their inner
    /// source's name.
    function Name(): (r: string)
      ensures r == Target().Name()
    {
      match this
      case Mock(m) => m.Name()
      case Boxed(i) => i.Name()
      case Borrowed(i) => i.Name()
    }

    /// `fill_bytes`: the forwarders pass the buffer on to their inner source.
    method FillBytes(dest: array<byte>)
      modifies Target(), dest
      ensures dest[..] == LcgStream(old(Target().state), dest.Length)
      ensures Target().state == LcgAdvance(old(Target().state), dest.Length)
    {
      match this
      case Mock(m) => m.FillBytes(dest);
      case Boxed(i) => i.FillBytes(dest);
      case Borrowed(i) => i.FillBytes(dest);
    }

    /// `reset`: the mock returns to its seed. The forwarders do not forward
    /// `reset`, so for them it is the trait's default, which does nothing.
    method Reset()
      modifies Target()
      ensures Target().state == ResetState(old(Target().state))
    {
      match this
      case Mock(m) => m.Reset();
      case Boxed(_) =>
      case Borrowed(_) =>
    }

    /// The state `reset` leaves behind when the generator is in state `s`.
    function ResetState(s: u64): u64
    {
      if Mock? then Target().initialState else s
    }

    /// The default `next_byte`: fills a one-byte buffer and returns its byte.
    method NextByte() returns (b: byte)
      modifies Target()
      ensures [b] == LcgStream(old(Target().state), 1)
      ensures Target().state == LcgAdvance(old(Target().state), 1)
    {
      var buf := new byte[1];
      FillBytes(buf);
      b := buf[0];
    }

    /// The default `next_u32`: fills a four-byte buffer and reads it as a
    /// little-endian integer.
    method NextU32() returns (x: u32)
      modifies Target()
      ensures x == LittleEndian(LcgStream(old(Target().state), 4))
      ensures Target().state == LcgAdvance(old(Target().state), 4)
    {
      var buf := new byte[4];
      FillBytes(buf);
      x := LittleEndian(buf[..]);
    }

    /// The default `next_u64`: fills an eight-byte buffer and reads it as a
    /// little-endian integer.
    method NextU64() returns (x: u64)
      modifies Target()
      ensures x == LittleEndian(LcgStream(old(Target().state), 8))
      ensures Target().state == LcgAdvance(old(Target().state), 8)
    {
      var buf := new byte[8];
      FillBytes(buf);
      x := LittleEndian(buf[..]);
    }
  }

  /// `256^n`.
  function Pow256(n: nat): (r: nat)
    ensures r > 0
  {
    if n == 0 then 1 else 256 * Pow256(n - 1)
  }

  /// `from_le_bytes`: the first byte is the least significant.
  function LittleEndian(bytes: seq<byte>): (x: nat)
    ensures x < Pow256(|bytes|)
  {
    if bytes == [] then 0 else bytes[0] as int + 256 * LittleEndian(bytes[1..])
  }

  /// `to_le_bytes` for an `n`-byte integer, the inverse of `LittleEndian`.
  function ToLittleEndian(x: nat, n: nat): (bytes: seq<byte>)
    ensures |bytes| == n
  {
    if n == 0 then [] else [ToByte(x % 256)] + ToLittleEndian(x / 256, n - 1)
  }

  /// A four-byte buffer reads as `b0 + 2^8 b1 + 2^16 b2 + 2^24 b3`.
  lemma LittleEndianFour(b: seq<byte>)
    requires |b| == 4
    ensures LittleEndian(b) == b[0] as int + 0x100 * b[1] as int + 0x1_0000 * b[2] as int + 0x100_0000 * b[3] as int
  {
    assert LittleEndian(b) == b[0] as int + 256 * LittleEndian(b[1..]);
    assert LittleEndian(b[1..]) == b[1] as int + 256 * LittleEndian(b[2..]);
    assert LittleEndian(b[2..]) == b[2] as int + 256 * LittleEndian(b[3..]);
    assert LittleEndian(b[3..]) == b[3] as int + 256 * LittleEndian(b[4..]);
    assert b[4..] == [];
  }

  /// Reading back what `ToLittleEndian` wrote gives the integer again.
  lemma {:induction false} LittleEndianOfToLittleEndian(x: nat, n: nat)
    requires x < Pow256(n)
    ensures LittleEndian(ToLittleEndian(x, n)) == x
  {
    if n > 0 {
      var q := x / 256;
      QuotientBelow(x, Pow256(n - 1));
      LittleEndianOfToLittleEndian(q, n - 1);
      var bs := ToLittleEndian(x, n);
      assert bs[0] as int == x % 256 && bs[1..] == ToLittleEndian(q, n - 1);
    }
  }

  /// Euclidean division by 256 is determined by quotient and remainder.
  lemma Div256(x: int, q: int, r: int)
    requires x == q * 256 + r && 0 <= r < 256
    ensures x / 256 == q && x % 256 == r
  {
  }

  lemma QuotientBelow(x: nat, p: nat)
    requires x < 256 * p
    ensures x / 256 < p
  {
  }

  /// Writing out what `LittleEndian` read gives the bytes again.
  lemma {:induction false} ToLittleEndianOfLittleEndian(bytes: seq<byte>)
    ensures ToLittleEndian(LittleEndian(bytes), |bytes|) == bytes
  {
    if bytes != [] {
      var rest := LittleEndian(bytes[1..]);
      Div256(LittleEndian(bytes), rest, bytes[0] as int);
      ToLittleEndianOfLittleEndian(bytes[1..]);
      assert ToLittleEndian(LittleEndian(bytes), |bytes|) == [bytes[0]] + bytes[1..];
    }
  }

  /// Two mocks built with the same seed fill equal buffers (the mock's
  /// determinism test).
  method SameSeedSameBytes(seed: u64, n: nat) returns (first: seq<byte>, second: seq<byte>)
    ensures first == second == LcgStream(seed, n)
  {
    var a := new MockEntropy(seed);
    var b := new MockEntropy(seed);
    var bufA := new byte[n];
    var bufB := new byte[n];
    a.FillBytes(bufA);
    b.FillBytes(bufB);
    first, second := bufA[..], bufB[..];
  }

  /// Fill, reset, fill: the mock repeats its bytes (the mock's reset test).
  method FillResetFill(seed: u64, n: nat) returns (first: seq<byte>, second: seq<byte>)
    ensures first == second == LcgStream(seed, n)
  {
    var source := new MockEntropy(seed);
    var buf := new byte[n];
    source.FillBytes(buf);
    first := buf[..];
    source.Reset();
    source.FillBytes(buf);
    second := buf[..];
  }

  /// Seeds 42 and 43 already differ in their first byte, so their buffers
  /// differ (the mock's different-seeds test).
  method DifferentSeedsDifferentBytes(n: nat) returns (first: seq<byte>, second: seq<byte>)
    requires n > 0
    ensures first == LcgStream(42, n) && second == LcgStream(43, n)
    ensures first[0] == 202 && second[0] == 12 && first != second
  {
    var a := new MockEntropy(42);
    var b := new MockEntropy(43);
    var bufA := new byte[n];
    var bufB := new byte[n];
    a.FillBytes(bufA);
    b.FillBytes(bufB);
    first, second := bufA[..], bufB[..];
    LcgStreamFirst(42, n);
    LcgStreamFirst(43, n);
    FirstOutputs();
  }

  /// One step from seeds 42 and 43, and the bytes it yields.
  lemma FirstOutputs()
    ensures LcgOutput(LcgStep(42)) == 202
    ensures LcgOutput(LcgStep(43)) == 12
  {
    assert LcgStep(42) == 46347652635;
    assert LcgStep(43) == 47451167880;
  }

  /// The first byte of a stream is the output of one step.
  lemma {:induction false} LcgStreamFirst(s: u64, n: nat)
    requires n > 0
    ensures LcgStream(s, n)[0] == LcgOutput(LcgStep(s))
  {
    if n > 1 {
      LcgStreamFirst(s, n - 1);
      assert LcgStream(s, n) == LcgStream(s, n - 1) + [LcgOutput(LcgAdvance(s, n))];
    } else {
      assert LcgAdvance(s, 1) == LcgStep(LcgAdvance(s, 0));
    }
  }

  /// Two fills of `n` and `m` bytes produce the bytes of one fill of `n + m`
  /// bytes, whatever the seed.
  method SplitFill(seed: u64, n: nat, m: nat) returns (parts: seq<byte>, whole: seq<byte>)
    ensures parts == whole == LcgStream(seed, n + m)
  {
    var a := new MockEntropy(seed);
    var first := new byte[n];
    var second := new byte[m];
    a.FillBytes(first);
    a.FillBytes(second);
    parts := first[..] + second[..];
    var b := new MockEntropy(seed);
    var all := new byte[n + m];
    b.FillBytes(all);
    whole := all[..];
    LcgConcatenation(seed, n, m);
  }
}
