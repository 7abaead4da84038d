/// One character of the XOR learning view taken apart: the byte it becomes,
/// the keystream byte it meets, the result, and the eight single-bit XORs
/// shown most significant bit first.
module Steps {
  import opened Bytes

  /// One single-bit XOR, at bit `position` of the three bytes.
  datatype BitOperation = BitOperation(inputBit: bool, keyBit: bool, resultBit: bool, position: nat)

  /// One encrypted character.
  datatype EncryptionStep = EncryptionStep(
    character: char,
    inputByte: byte,
    keystreamByte: byte,
    resultByte: byte,
    bitOps: seq<BitOperation>)
  {
    /// `input_binary`: the input byte as eight binary digits.
    function InputBinary(): (r: string)
      ensures IsBinaryNumeral(r) && ParseBinary(r) == inputByte
    {
      BinaryRoundTrip(inputByte);
      Binary(inputByte)
    }

    /// `keystream_binary`: the keystream byte as eight binary digits.
    function KeystreamBinary(): (r: string)
      ensures IsBinaryNumeral(r) && ParseBinary(r) == keystreamByte
    {
      BinaryRoundTrip(keystreamByte);
      Binary(keystreamByte)
    }

    /// `result_binary`: the result byte as eight binary digits.
    function ResultBinary(): (r: string)
      ensures IsBinaryNumeral(r) && ParseBinary(r) == resultByte
    {
      BinaryRoundTrip(resultByte);
      Binary(resultByte)
    }
  }

  /// `c as u8`: the code point truncated to its low eight bits.
  function CharToByte(c: char): (b: byte)
    ensures b as int == c as int % 256
  {
    ToByte(c as int % 256)
  }

  /// `(b & (1 << i)) != 0`.
  function MaskSet(b: byte, i: nat): bool
    requires i < 8
  {
    b & (1 << i) != 0
  }

  /// Masking with `1 << i` tests bit `i`.
  lemma MaskSetIsBit(b: byte, i: nat)
    requires i < 8
    ensures MaskSet(b, i) <==> Bit(b, i) == 1
  {
  }

  /// The bit operation at `position`, read off the three bytes.
  function BitOperationAt(input: byte, key: byte, result: byte, position: nat): BitOperation
    requires position < 8
  {
    BitOperation(MaskSet(input, position), MaskSet(key, position), MaskSet(result, position), position)
  }

  /// The eight bit operations, positions 7 down to 0.
  function BitOperations(input: byte, key: byte, result: byte): (ops: seq<BitOperation>)
    ensures |ops| == 8
  {
    seq(8, k requires 0 <= k < 8 => BitOperationAt(input, key, result, 7 - k))
  }

  /// The step `EncryptionStep::new(c, k)` builds.
  function EncryptionStepOf(c: char, k: byte): EncryptionStep
  {
    var input := CharToByte(c);
    var result := input ^ k;
    EncryptionStep(c, input, k, result, BitOperations(input, k, result))
  }

  /// `EncryptionStep::new`: truncates the character to a byte, XORs it with
  /// the keystream byte and records the bits from position 7 down to 0.
  method NewEncryptionStep(inputChar: char, keystreamByte: byte) returns (step: EncryptionStep)
    ensures step == EncryptionStepOf(inputChar, keystreamByte)
  {
    var inputByte := CharToByte(inputChar);
    var resultByte := inputByte ^ keystreamByte;
    ghost var ops := BitOperations(inputByte, keystreamByte, resultByte);
    assert EncryptionStepOf(inputChar, keystreamByte) == EncryptionStep(inputChar, inputByte, keystreamByte, resultByte, ops);
    var bitOps: seq<BitOperation> := [];
    var i := 8;
    while i > 0
      invariant 0 <= i <= 8
      invariant bitOps == ops[..8 - i]
    {
      i := i - 1;
      var inputBit := MaskSet(inputByte, i);
      var keyBit := MaskSet(keystreamByte, i);
      var resultBit := MaskSet(resultByte, i);
      assert ops[..8 - i] == ops[..7 - i] + [BitOperation(inputBit, keyBit, resultBit, i)];
      bitOps := bitOps + [BitOperation(inputBit, keyBit, resultBit, i)];
    }
    assert bitOps == ops;
    step := EncryptionStep(inputChar, inputByte, keystreamByte, resultByte, bitOps);
  }

  /// What a step records: the character unchanged, its truncated byte, the
  /// XOR with the keystream byte, and eight bit operations at positions
  /// 7, 6, ..., 0 in which each bit is that bit of its byte and the result
  /// bit is the exclusive or of the input and key bits.
  lemma EncryptionStepFacts(c: char, k: byte)
    ensures var step := EncryptionStepOf(c, k);
      step.character == c &&
      step.inputByte as int == c as int % 256 &&
      step.keystreamByte == k &&
      step.resultByte == step.inputByte ^ k &&
      |step.bitOps| == 8 &&
      forall j :: 0 <= j < 8 ==>
        step.bitOps[j].position == 7 - j &&
        BitOperationFaithful(step.inputByte, k, step.resultByte, step.bitOps[j])
  {
    var input := CharToByte(c);
    var step := EncryptionStepOf(c, k);
    assert step == EncryptionStep(c, input, k, input ^ k, BitOperations(input, k, input ^ k));
    BitOperationsFaithful(input, k, input ^ k);
  }

  /// The eight operations are positions 7 down to 0, each faithful.
  lemma BitOperationsFaithful(input: byte, key: byte, result: byte)
    requires result == input ^ key
    ensures forall j :: 0 <= j < 8 ==>
      BitOperations(input, key, result)[j].position == 7 - j &&
      BitOperationFaithful(input, key, result, BitOperations(input, key, result)[j])
  {
    var ops := BitOperations(input, key, result);
    forall j | 0 <= j < 8
      ensures BitOperationFaithful(input, key, result, ops[j])
    {
      assert ops[j] == BitOperationAt(input, key, result, 7 - j);
      BitOperationAtFacts(input, key, result, 7 - j);
    }
  }

  /// Each bit of the operation is that bit of its byte, and the result bit
  /// is the exclusive or of the input and key bits.
  predicate BitOperationFaithful(input: byte, key: byte, result: byte, op: BitOperation)
  {
    op.position < 8 &&
    (op.inputBit <==> Bit(input, op.position) == 1) &&
    (op.keyBit <==> Bit(key, op.position) == 1) &&
    (op.resultBit <==> Bit(result, op.position) == 1) &&
    (op.resultBit <==> op.inputBit != op.keyBit)
  }

  lemma BitOperationAtFacts(input: byte, key: byte, result: byte, i: nat)
    requires i < 8 && result == input ^ key
    ensures BitOperationFaithful(input, key, result, BitOperationAt(input, key, result, i))
  {
    BitFacts(input, key, result, i);
  }

  lemma BitFacts(input: byte, key: byte, result: byte, i: nat)
    requires i < 8 && result == input ^ key
    ensures MaskSet(input, i) <==> Bit(input, i) == 1
    ensures MaskSet(key, i) <==> Bit(key, i) == 1
    ensures MaskSet(result, i) <==> Bit(result, i) == 1
    ensures MaskSet(result, i) <==> MaskSet(input, i) != MaskSet(key, i)
  {
    MaskSetIsBit(input, i);
    MaskSetIsBit(key, i);
    MaskSetIsBit(result, i);
    XorBit(input, key, i);
    OddSum(Bit(input, i), Bit(key, i), Bit(result, i));
  }

  lemma OddSum(x: nat, y: nat, z: nat)
    requires x <= 1 && y <= 1 && z == (x + y) % 2
    ensures z == 1 <==> (x == 1) != (y == 1)
  {
  }

  // ---------------------------------------------------------------------
  // `format!("{:08b}", b)`
  // ---------------------------------------------------------------------

  /// The eight binary digits of a byte, most significant first.
  function Binary(b: byte): (s: string)
    ensures |s| == 8
  {
    seq(8, k requires 0 <= k < 8 => if Bit(b, 7 - k) == 1 then '1' else '0')
  }

  /// Eight characters, each `0` or `1`.
  predicate IsBinaryNumeral(s: string)
  {
    |s| == 8 && forall i :: 0 <= i < |s| ==> s[i] == '0' || s[i] == '1'
  }

  /// The value of a binary digit.
  function Digit(c: char): byte
  {
    if c == '1' then 1 else 0
  }

  /// Reads a binary numeral, most significant digit first, into a byte.
  function ParseBinary(s: string): byte
  {
    if s == [] then 0 else (ParseBinary(s[..|s| - 1]) << 1) | Digit(s[|s| - 1])
  }

  /// Reading one more digit: shift left and add it.
  lemma ParseBinaryStep(s: string, k: nat)
    requires k < |s|
    ensures ParseBinary(s[..k + 1]) == (ParseBinary(s[..k]) << 1) | Digit(s[k])
  {
    assert s[..k + 1][..k] == s[..k];
  }

  /// Writing a byte in binary and reading it back gives the byte.
  lemma BinaryRoundTrip(b: byte)
    ensures IsBinaryNumeral(Binary(b))
    ensures ParseBinary(Binary(b)) == b
  {
    ParseEight(Binary(b));
    DigitAt(b, 0);
    DigitAt(b, 1);
    DigitAt(b, 2);
    DigitAt(b, 3);
    DigitAt(b, 4);
    DigitAt(b, 5);
    DigitAt(b, 6);
    DigitAt(b, 7);
    Reassemble(b);
  }

  /// An eight-digit numeral read digit by digit.
  lemma ParseEight(s: string)
    requires |s| == 8
    ensures ParseBinary(s) == (((((((((((((((((0 as byte) << 1) | Digit(s[0])) << 1) | Digit(s[1])) << 1) | Digit(s[2])) << 1) | Digit(s[3])) << 1) | Digit(s[4])) << 1) | Digit(s[5])) << 1) | Digit(s[6])) << 1) | Digit(s[7]))
  {
    assert s[..0] == [];
    ParseBinaryStep(s, 0);
    ParseBinaryStep(s, 1);
    ParseBinaryStep(s, 2);
    ParseBinaryStep(s, 3);
    ParseBinaryStep(s, 4);
    ParseBinaryStep(s, 5);
    ParseBinaryStep(s, 6);
    ParseBinaryStep(s, 7);
    assert s[..8] == s;
  }

  /// Digit `k` of the numeral is bit `7 - k` of the byte.
  lemma DigitAt(b: byte, k: nat)
    requires k < 8
    ensures Digit(Binary(b)[k]) == (b >> (7 - k)) & 1
  {
  }

  /// Shifting in the bits of a byte from the top down rebuilds it.
  lemma Reassemble(b: byte)
    ensures (((((((((((((((((0 as byte) << 1) | ((b >> 7) & 1)) << 1) | ((b >> 6) & 1)) << 1) | ((b >> 5) & 1)) << 1) | ((b >> 4) & 1)) << 1) | ((b >> 3) & 1)) << 1) | ((b >> 2) & 1)) << 1) | ((b >> 1) & 1)) << 1) | (b & 1)) == b
  {
  }
}
