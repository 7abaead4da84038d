/// The XOR learning view: a text is encrypted character by character against
/// a keystream, one `EncryptionStep` per character, and the user steps or
/// plays through them.
module XorVisual {
  import opened Bytes
  import opened Text
  import opened Steps
  import opened Navigation

  /// The steps `start` records: one per character, the `i`-th character
  /// meeting the `i`-th keystream byte.
  function StepsOf(text: string, keystream: seq<byte>): (steps: seq<EncryptionStep>)
    requires |text| <= |keystream|
    ensures |steps| == |text|
  {
    seq(|text|, i requires 0 <= i < |text| => EncryptionStepOf(text[i], keystream[i]))
  }

  class EncryptionProcess {
    var inputText: string
    var steps: seq<EncryptionStep>
    var currentStepIndex: nat
    var isPlaying: bool

    /// The navigation state.
    function Position(): Cursor
      reads this
    {
      Cursor(currentStepIndex, isPlaying)
    }

    ghost predicate Valid()
      reads this
    {
      InBounds(Position(), |steps|)
    }

    /// `EncryptionProcess::new`: no text, no steps, first step, paused.
    constructor ()
      ensures Valid()
      ensures inputText == [] && steps == [] && Position() == Initial()
    {
      inputText := [];
      steps := [];
      currentStepIndex := 0;
      isPlaying := false;
    }

    /// `start`: resets the view and records one step per character. The
    /// keystream is the `text.len()` bytes the source draws in one fill, that
    /// is one byte per UTF-8 byte of the text, so it always covers the
    /// characters and the source's `i < keystream.len()` guard never skips.
    method Start(text: string, keystream: seq<byte>)
      requires |keystream| == |Utf8(text)|
      modifies this
      ensures Valid()
      ensures inputText == text && Position() == Initial()
      ensures |text| <= |keystream| && steps == StepsOf(text, keystream)
    {
      inputText := text;
      steps := [];
      currentStepIndex := 0;
      isPlaying := false;
      Utf8Length(text);
      var i := 0;
      while i < |text|
        invariant inputText == text && Position() == Initial()
        invariant 0 <= i <= |text| && |steps| == i
        invariant forall k :: 0 <= k < i ==> steps[k] == EncryptionStepOf(text[k], keystream[k])
      {
        if i < |keystream| {
          var step := NewEncryptionStep(text[i], keystream[i]);
          steps := steps + [step];
        }
        i := i + 1;
      }
    }

    /// `current_step`.
    function CurrentStep(): (r: Option<EncryptionStep>)
      reads this
      requires Valid()
      ensures r.None? <==> steps == []
      ensures r.Some? ==> currentStepIndex < |steps| && r.value == steps[currentStepIndex]
    {
      Current(steps, Position())
    }

    /// `next_step`.
    method NextStep()
      requires Valid()
      modifies this
      ensures Valid()
      ensures Position() == Next(old(Position()), |steps|)
      ensures steps == old(steps) && inputText == old(inputText)
    {
      if currentStepIndex + 1 < |steps| {
        currentStepIndex := currentStepIndex + 1;
      } else {
        isPlaying := false;
      }
    }

    /// `prev_step`.
    method PrevStep()
      requires Valid()
      modifies this
      ensures Valid()
      ensures Position() == Prev(old(Position()))
      ensures steps == old(steps) && inputText == old(inputText)
    {
      if currentStepIndex > 0 {
        currentStepIndex := currentStepIndex - 1;
      }
    }

    /// `toggle_play`.
    method TogglePlay()
      requires Valid()
      modifies this
      ensures Valid()
      ensures Position() == Toggle(old(Position()))
      ensures steps == old(steps) && inputText == old(inputText)
    {
      isPlaying := !isPlaying;
    }
  }

  /// Each recorded step shows its character, the character's code point
  /// truncated to a byte, the keystream byte at the character's position,
  /// and a result from which XOR with the same keystream byte recovers the
  /// input byte.
  lemma StepsOfFacts(text: string, keystream: seq<byte>)
    requires |text| <= |keystream|
    ensures forall i :: 0 <= i < |text| ==>
      var step := StepsOf(text, keystream)[i];
      step.character == text[i] &&
      step.inputByte as int == text[i] as int % 256 &&
      step.keystreamByte == keystream[i] &&
      step.resultByte ^ keystream[i] == step.inputByte
  {
    forall i | 0 <= i < |text|
      ensures var step := StepsOf(text, keystream)[i];
        step.character == text[i] &&
        step.inputByte as int == text[i] as int % 256 &&
        step.keystreamByte == keystream[i] &&
        step.resultByte ^ keystream[i] == step.inputByte
    {
      EncryptionStepFacts(text[i], keystream[i]);
      XorTwice(CharToByte(text[i]), keystream[i]);
    }
  }

  /// For ASCII text the steps walk through exactly the bytes of the text:
  /// input bytes are the UTF-8 bytes and result bytes are their XOR with
  /// the keystream.
  lemma AsciiStepsFollowEncoding(text: string, keystream: seq<byte>)
    requires IsAscii(text) && |keystream| == |text|
    ensures |Utf8(text)| == |keystream|
    ensures forall i :: 0 <= i < |text| ==>
      StepsOf(text, keystream)[i].inputByte == Utf8(text)[i] &&
      StepsOf(text, keystream)[i].resultByte == XorBytes(Utf8(text), keystream)[i]
  {
    Utf8OfAscii(text);
    var bytes := Utf8(text);
    var steps := StepsOf(text, keystream);
    forall i | 0 <= i < |text|
      ensures steps[i].inputByte == bytes[i] && steps[i].resultByte == XorBytes(bytes, keystream)[i]
    {
      AsciiStep(text[i], keystream[i], bytes[i]);
    }
  }

  /// An ASCII character's step shows its encoding byte and that byte's XOR.
  lemma AsciiStep(c: char, k: byte, b: byte)
    requires c as int < 0x80 && b as int == c as int
    ensures EncryptionStepOf(c, k).inputByte == b
    ensures EncryptionStepOf(c, k).resultByte == b ^ k
  {
    var input := CharToByte(c);
    BelowModulus(c as int);
    SameValue(input, b);
  }

  lemma BelowModulus(x: int)
    requires 0 <= x < 256
    ensures x % 256 == x
  {
  }

  /// Beyond ASCII the keystream is indexed by character, not by byte: the
  /// one-character text "é" (U+00E9) draws two keystream bytes, records one
  /// step, and shows the truncated code point 0xE9, which is neither of its
  /// UTF-8 bytes 0xC3 0xA9.
  lemma NonAsciiExample(keystream: seq<byte>)
    requires |keystream| == |Utf8("é")|
    ensures |keystream| == 2
    ensures |StepsOf("é", keystream)| == 1
    ensures Utf8("é") == [0xC3, 0xA9]
    ensures StepsOf("é", keystream)[0].inputByte == 0xE9
  {
    assert "é"[..0] == [];
    assert EncodeChar('é') == [0xC3, 0xA9];
    EncryptionStepFacts('é', keystream[0]);
  }
}
