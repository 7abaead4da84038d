/// The frequency (monobit) learning view: the NIST frequency test on the
/// bytes of a text, shown as five steps — the bits, their counts, the
/// statistic, the p-value and the verdict.
module NistVisual {
  import opened Bytes
  import opened Text
  import opened SpecialFunctions
  import opened Navigation
  import Nist

  datatype NistStepType = ConvertToBits | CountOnesZeros | CalculateStatistic | CalculatePValue | Interpret

  /// One displayed step; fields not yet computed at a step hold zero.
  datatype NistFrequencyStep = NistFrequencyStep(
    stepType: NistStepType,
    bits: seq<nat>,
    onesCount: nat,
    zerosCount: nat,
    sum: int,
    sObs: real,
    pValue: real,
    passed: bool)

  /// `|sum| / sqrt(n)`.
  function StatisticOf(sum: int, n: nat, nx: Numerics): real
    requires nx.Valid() && n > 0
  {
    Abs(sum as real) / nx.sqrt(n as real)
  }

  /// `erfc(s_obs / SQRT_2)`.
  function PValueOf(sObs: real, nx: Numerics): real
  {
    Erfc(sObs / SQRT_2, nx.exp)
  }

  /// The five steps `start` records for a non-empty byte string, none for
  /// the empty one.
  function NistStepsOf(data: seq<byte>, nx: Numerics): (steps: seq<NistFrequencyStep>)
    requires nx.Valid()
  {
    if data == [] then []
    else
      var bits := MsbBits(data);
      var ones := Ones(bits);
      var zeros := |bits| - ones;
      var sum := ones - zeros;
      var sObs := StatisticOf(sum, |bits|, nx);
      var pValue := PValueOf(sObs, nx);
      [NistFrequencyStep(ConvertToBits, bits, 0, 0, 0, 0.0, 0.0, false),
       NistFrequencyStep(CountOnesZeros, bits, ones, zeros, 0, 0.0, 0.0, false),
       NistFrequencyStep(CalculateStatistic, bits, ones, zeros, sum, sObs, 0.0, false),
       NistFrequencyStep(CalculatePValue, bits, ones, zeros, sum, sObs, pValue, false),
       NistFrequencyStep(Interpret, bits, ones, zeros, sum, sObs, pValue, Passes(pValue))]
  }

  /// The step types in display order.
  const STEP_ORDER: seq<NistStepType> :=
    [ConvertToBits, CountOnesZeros, CalculateStatistic, CalculatePValue, Interpret]

  /// The bits of a byte, most significant first, appended to `bits`.
  method PushBits(bits: seq<nat>, b: byte) returns (r: seq<nat>)
    ensures r == bits + MsbBits([b])
  {
    r := bits;
    var i := 8;
    while i > 0
      invariant 0 <= i <= 8
      invariant r == bits + MsbBits([b])[..8 - i]
    {
      i := i - 1;
      assert MsbBits([b])[..8 - i] == MsbBits([b])[..7 - i] + [Bit(b, i)];
      r := r + [Bit(b, i)];
    }
    assert MsbBits([b])[..8] == MsbBits([b]);
  }

  /// The nested loop of `start`: every byte's bits, most significant first.
  method ExpandBits(data: seq<byte>) returns (bits: seq<nat>)
    ensures bits == MsbBits(data)
  {
    bits := [];
    var j := 0;
    while j < |data|
      invariant 0 <= j <= |data|
      invariant bits == MsbBits(data[..j])
    {
      assert data[..j + 1] == data[..j] + [data[j]];
      MsbBitsSnoc(data[..j], data[j]);
      bits := PushBits(bits, data[j]);
      j := j + 1;
    }
    assert data[..j] == data;
  }

  /// The five steps of `start` for non-empty bytes, pushed one by one.
  method RecordSteps(data: seq<byte>, nx: Numerics) returns (recorded: seq<NistFrequencyStep>)
    requires data != [] && nx.Valid()
    ensures recorded == NistStepsOf(data, nx)
  {
    recorded := [];
    var bits := ExpandBits(data);
    recorded := recorded + [NistFrequencyStep(ConvertToBits, bits, 0, 0, 0, 0.0, 0.0, false)];
    var onesCount := Ones(bits);
    var zerosCount := |bits| - onesCount;
    recorded := recorded + [NistFrequencyStep(CountOnesZeros, bits, onesCount, zerosCount, 0, 0.0, 0.0, false)];
    var sum := onesCount - zerosCount;
    var sObs := Abs(sum as real) / nx.sqrt(|bits| as real);
    recorded := recorded + [NistFrequencyStep(CalculateStatistic, bits, onesCount, zerosCount, sum, sObs, 0.0, false)];
    var pValue := Erfc(sObs / SQRT_2, nx.exp);
    assert pValue == PValueOf(sObs, nx);
    recorded := recorded + [NistFrequencyStep(CalculatePValue, bits, onesCount, zerosCount, sum, sObs, pValue, false)];
    var passed := pValue >= 0.01;
    recorded := recorded + [NistFrequencyStep(Interpret, bits, onesCount, zerosCount, sum, sObs, pValue, passed)];
    assert sObs == StatisticOf(sum, |bits|, nx);
  }

  /// `text.chars()` after `generate_random`'s mapping: byte `b` becomes the
  /// character `33 + b mod 93`.
  function RandomChar(b: byte): (c: char)
    ensures 33 <= c as int <= 125
    ensures c as int == 33 + b as int % 93
  {
    (33 + b as int % 93) as char
  }

  /// The text `generate_random` builds from its bytes.
  function RandomText(data: seq<byte>): (text: string)
    ensures |text| == |data|
  {
    seq(|data|, i requires 0 <= i < |data| => RandomChar(data[i]))
  }

  class NistProcess {
    var inputText: string
    var steps: seq<NistFrequencyStep>
    var currentStepIndex: nat
    var isPlaying: bool

    /// The navigation state.
    function Position(): Cursor
      reads this
    {
      Cursor(currentStepIndex, isPlaying)
    }

    ghost predicate Valid()
      reads this
    {
      InBounds(Position(), |steps|)
    }

    /// `NistProcess::new`: no text, no steps, first step, paused.
    constructor ()
      ensures Valid()
      ensures inputText == [] && steps == [] && Position() == Initial()
    {
      inputText := [];
      steps := [];
      currentStepIndex := 0;
      isPlaying := false;
    }

    /// `start`: resets the view and records the five steps of the frequency
    /// test on the UTF-8 bytes of the text (none for the empty text).
    method Start(text: string, nx: Numerics)
      requires nx.Valid()
      modifies this
      ensures Valid()
      ensures inputText == text && Position() == Initial()
      ensures steps == NistStepsOf(Utf8(text), nx)
    {
      inputText := text;
      steps := [];
      currentStepIndex := 0;
      isPlaying := false;
      var data := Utf8(text);
      if |data| == 0 {
        return;
      }
      var recorded := RecordSteps(data, nx);
      steps := steps + recorded;
    }

    /// `generate_random`: the bytes (drawn from the system source in the
    /// original) become printable characters, which are then shown.
    method GenerateRandom(data: seq<byte>, nx: Numerics)
      requires nx.Valid()
      modifies this
      ensures Valid()
      ensures inputText == RandomText(data) && Position() == Initial()
      ensures steps == NistStepsOf(Utf8(RandomText(data)), nx)
    {
      var chars := RandomText(data);
      Start(chars, nx);
    }

    /// `current_step`.
    function CurrentStep(): (r: Option<NistFrequencyStep>)
      reads this
      requires Valid()
      ensures r.None? <==> steps == []
      ensures r.Some? ==> currentStepIndex < |steps| && r.value == steps[currentStepIndex]
    {
      Current(steps, Position())
    }

    /// `next_step`.
    method NextStep()
      requires Valid()
      modifies this
      ensures Valid()
      ensures Position() == Next(old(Position()), |steps|)
      ensures steps == old(steps) && inputText == old(inputText)
    {
      if currentStepIndex + 1 < |steps| {
        currentStepIndex := currentStepIndex + 1;
      } else {
        isPlaying := false;
      }
    }

    /// `prev_step`.
    method PrevStep()
      requires Valid()
      modifies this
      ensures Valid()
      ensures Position() == Prev(old(Position()))
      ensures steps == old(steps) && inputText == old(inputText)
    {
      if currentStepIndex > 0 {
        currentStepIndex := currentStepIndex - 1;
      }
    }

    /// `toggle_play`.
    method TogglePlay()
      requires Valid()
      modifies this
      ensures Valid()
      ensures Position() == Toggle(old(Position()))
      ensures steps == old(steps) && inputText == old(inputText)
    {
      isPlaying := !isPlaying;
    }
  }

  /// The shape of the recorded steps: none exactly for empty input,
  /// otherwise five in display order, all showing the same most-significant
  /// first bit expansion, with counts that add up to the number of bits, the
  /// sum `ones - zeros`, and a verdict only at the last step.
  lemma NistStepsShape(data: seq<byte>, nx: Numerics)
    requires nx.Valid()
    ensures NistStepsOf(data, nx) == [] <==> data == []
    ensures data != [] ==>
      var steps := NistStepsOf(data, nx);
      |steps| == 5 &&
      (forall i :: 0 <= i < 5 ==>
        steps[i].stepType == STEP_ORDER[i] &&
        steps[i].bits == MsbBits(data) &&
        (i < 4 ==> !steps[i].passed)) &&
      IsBitString(steps[0].bits) && |steps[0].bits| == 8 * |data| &&
      (forall i :: 1 <= i < 5 ==>
        steps[i].onesCount + steps[i].zerosCount == 8 * |data|) &&
      (forall i :: 2 <= i < 5 ==>
        steps[i].sum == steps[i].onesCount - steps[i].zerosCount) &&
      steps[4].passed == Passes(steps[4].pValue)
  {
    if data != [] {
      BitExpansions(data, 0, 0);
    }
  }

  /// The view's sum is the monobit sum of the battery's frequency test,
  /// although the view expands bytes most-significant bit first and the
  /// test least-significant bit first.
  lemma NistSumIsMonobitSum(data: seq<byte>, nx: Numerics)
    requires nx.Valid() && data != []
    ensures var steps := NistStepsOf(data, nx);
      |steps| == 5 &&
      steps[2].sum == steps[3].sum == steps[4].sum == Nist.MonobitSum(data)
  {
    OnesInExpansions(data);
  }

  /// The view's p-value is the p-value of the battery's frequency test.
  lemma NistPValueIsFrequencyPValue(data: seq<byte>, nx: Numerics)
    requires nx.Valid() && data != []
    ensures var steps := NistStepsOf(data, nx);
      |steps| == 5 &&
      steps[3].pValue == steps[4].pValue == Evaluate(Nist.FrequencyOutcome(data), nx)
  {
    NistSumIsMonobitSum(data, nx);
    var steps := NistStepsOf(data, nx);
    var sum := Nist.MonobitSum(data);
    assert Nist.FrequencyOutcome(data) == Monobit(sum, 8 * |data|);
    assert steps[3].pValue == steps[4].pValue == PValueOf(StatisticOf(steps[2].sum, 8 * |data|, nx), nx);
  }

  /// `generate_random` yields one printable ASCII character per byte, so the
  /// test sees exactly as many bytes as were drawn.
  lemma RandomTextIsPrintable(data: seq<byte>)
    ensures forall i :: 0 <= i < |data| ==> 33 <= RandomText(data)[i] as int <= 125
    ensures IsAscii(RandomText(data))
    ensures |Utf8(RandomText(data))| == |data|
  {
    Utf8OfAscii(RandomText(data));
  }
}
