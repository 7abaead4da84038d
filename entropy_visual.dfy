/// The Shannon-entropy learning view: the byte counts of a text, their
/// probabilities, each byte value's contribution `-p log2 p`, the total and
/// the largest entropy possible for that many distinct values, shown as five
/// steps.
module EntropyVisual {
  import opened Bytes
  import opened Text
  import opened Statistics
  import opened SpecialFunctions
  import opened Navigation
  import Metrics

  datatype EntropyStepType = CountBytes | CalculateProbabilities | CalculateContributions | SumEntropy | Interpret

  /// One displayed step; dictionaries not yet computed at a step are empty
  /// and sums not yet computed are zero.
  datatype EntropyStep = EntropyStep(
    stepType: EntropyStepType,
    byteCounts: map<ByteValue, nat>,
    probabilities: map<ByteValue, real>,
    entropyContributions: map<ByteValue, real>,
    currentEntropySum: real,
    totalEntropy: real,
    maxEntropy: real)

  /// The step types in display order.
  const STEP_ORDER: seq<EntropyStepType> :=
    [CountBytes, CalculateProbabilities, CalculateContributions, SumEntropy, Interpret]

  /// Every counted byte value with its share of the `n` bytes.
  function ProbabilitiesOf(counts: map<ByteValue, nat>, n: nat): (probs: map<ByteValue, real>)
    requires n > 0
    ensures probs.Keys == counts.Keys
  {
    map k | k in counts :: counts[k] as real / n as real
  }

  /// `-p log2 p` for a positive probability, `0.0` otherwise.
  function Contribution(p: real, nx: Numerics): real
  {
    if p > 0.0 then -p * nx.log2(p) else 0.0
  }

  /// Every byte value's contribution to the entropy.
  function ContributionsOf(probs: map<ByteValue, real>, nx: Numerics): (contribs: map<ByteValue, real>)
    ensures contribs.Keys == probs.Keys
  {
    map k | k in probs :: Contribution(probs[k], nx)
  }

  /// The value stored under the byte value `v`, `0.0` when absent.
  function ValueAt(m: map<ByteValue, real>, v: nat): real
    requires v < 256
  {
    if v as ByteValue in m then m[v as ByteValue] else 0.0
  }

  /// The sum of the values stored under the byte values below `k`.
  function SumBelow(m: map<ByteValue, real>, k: nat): real
    requires k <= 256
  {
    if k == 0 then 0.0 else SumBelow(m, k - 1) + ValueAt(m, k - 1)
  }

  /// `values().sum()`: the sum of all values of the dictionary.
  function SumValues(m: map<ByteValue, real>): real
  {
    SumBelow(m, 256)
  }

  /// `log2` of the number of distinct byte values, `0.0` when there are none.
  function MaxEntropyOf(probs: map<ByteValue, real>, nx: Numerics): real
  {
    if |probs| > 0 then nx.log2(|probs| as real) else 0.0
  }

  /// The five steps `start` records for a non-empty byte string, none for
  /// the empty one.
  function EntropyStepsOf(data: seq<byte>, nx: Numerics): (steps: seq<EntropyStep>)
  {
    if data == [] then []
    else
      var counts := ByteCounts(data);
      var probs := ProbabilitiesOf(counts, |data|);
      var contribs := ContributionsOf(probs, nx);
      var total := SumValues(contribs);
      var maxEntropy := MaxEntropyOf(probs, nx);
      [EntropyStep(CountBytes, counts, map[], map[], 0.0, 0.0, 0.0),
       EntropyStep(CalculateProbabilities, counts, probs, map[], 0.0, 0.0, 0.0),
       EntropyStep(CalculateContributions, counts, probs, contribs, 0.0, 0.0, 0.0),
       EntropyStep(SumEntropy, counts, probs, contribs, total, total, maxEntropy),
       EntropyStep(Interpret, counts, probs, contribs, total, total, maxEntropy)]
  }

  /// The probability loop of `start`, one entry per counted byte value, in
  /// whatever order the dictionary yields them.
  method ComputeProbabilities(counts: map<ByteValue, nat>, n: nat) returns (probs: map<ByteValue, real>)
    requires n > 0
    ensures probs == ProbabilitiesOf(counts, n)
  {
    var totalBytes := n as real;
    probs := map[];
    var remaining := counts.Keys;
    while remaining != {}
      invariant remaining <= counts.Keys
      invariant probs == map k | k in counts.Keys - remaining :: counts[k] as real / totalBytes
      decreases |remaining|
    {
      var key :| key in remaining;
      probs := probs[key := counts[key] as real / totalBytes];
      remaining := remaining - {key};
    }
  }

  /// The contribution loop of `start`.
  method ComputeContributions(probs: map<ByteValue, real>, nx: Numerics) returns (contribs: map<ByteValue, real>)
    ensures contribs == ContributionsOf(probs, nx)
  {
    contribs := map[];
    var remaining := probs.Keys;
    while remaining != {}
      invariant remaining <= probs.Keys
      invariant contribs == map k | k in probs.Keys - remaining :: Contribution(probs[k], nx)
      decreases |remaining|
    {
      var key :| key in remaining;
      var p := probs[key];
      if p > 0.0 {
        assert Contribution(p, nx) == -p * nx.log2(p);
        contribs := contribs[key := -p * nx.log2(p)];
      } else {
        assert Contribution(p, nx) == 0.0;
        contribs := contribs[key := 0.0];
      }
      remaining := remaining - {key};
    }
  }

  /// The five steps of `start` for non-empty bytes, pushed one by one.
  method RecordSteps(data: seq<byte>, nx: Numerics) returns (recorded: seq<EntropyStep>)
    requires data != []
    ensures recorded == EntropyStepsOf(data, nx)
  {
    recorded := [];
    var byteCounts := FrequencyMap(data);
    ghost var probs := ProbabilitiesOf(byteCounts, |data|);
    ghost var contribs := ContributionsOf(probs, nx);
    assert EntropyStepsOf(data, nx) == [
      EntropyStep(CountBytes, byteCounts, map[], map[], 0.0, 0.0, 0.0),
      EntropyStep(CalculateProbabilities, byteCounts, probs, map[], 0.0, 0.0, 0.0),
      EntropyStep(CalculateContributions, byteCounts, probs, contribs, 0.0, 0.0, 0.0),
      EntropyStep(SumEntropy, byteCounts, probs, contribs, SumValues(contribs), SumValues(contribs), MaxEntropyOf(probs, nx)),
      EntropyStep(Interpret, byteCounts, probs, contribs, SumValues(contribs), SumValues(contribs), MaxEntropyOf(probs, nx))];
    recorded := recorded + [EntropyStep(CountBytes, byteCounts, map[], map[], 0.0, 0.0, 0.0)];
    var probabilities := ComputeProbabilities(byteCounts, |data|);
    recorded := recorded + [EntropyStep(CalculateProbabilities, byteCounts, probabilities, map[], 0.0, 0.0, 0.0)];
    var contributions := ComputeContributions(probabilities, nx);
    recorded := recorded + [EntropyStep(CalculateContributions, byteCounts, probabilities, contributions, 0.0, 0.0, 0.0)];
    var totalEntropy := SumValues(contributions);
    var maxPossible := if |probabilities| > 0 then nx.log2(|probabilities| as real) else 0.0;
    recorded := recorded + [EntropyStep(SumEntropy, byteCounts, probabilities, contributions, totalEntropy, totalEntropy, maxPossible)];
    recorded := recorded + [EntropyStep(Interpret, byteCounts, probabilities, contributions, totalEntropy, totalEntropy, maxPossible)];
  }

  class EntropyProcess {
    var input: string
    var steps: seq<EntropyStep>
    var currentStepIndex: nat
    var isPlaying: bool

    /// The navigation state.
    function Position(): Cursor
      reads this
    {
      Cursor(currentStepIndex, isPlaying)
    }

    ghost predicate Valid()
      reads this
    {
      InBounds(Position(), |steps|)
    }

    /// `EntropyProcess::new`: no text, no steps, first step, paused.
    constructor ()
      ensures Valid()
      ensures input == [] && steps == [] && Position() == Initial()
    {
      input := [];
      steps := [];
      currentStepIndex := 0;
      isPlaying := false;
    }

    /// `start`: resets the view and records the five steps of the entropy
    /// computation on the UTF-8 bytes of the text (none for the empty text).
    method Start(text: string, nx: Numerics)
      modifies this
      ensures Valid()
      ensures input == text && Position() == Initial()
      ensures steps == EntropyStepsOf(Utf8(text), nx)
    {
      input := text;
      steps := [];
      currentStepIndex := 0;
      isPlaying := false;
      var data := Utf8(text);
      if |data| == 0 {
        return;
      }
      var recorded := RecordSteps(data, nx);
      steps := steps + recorded;
    }

    /// `current_step`.
    function CurrentStep(): (r: Option<EntropyStep>)
      reads this
      requires Valid()
      ensures r.None? <==> steps == []
      ensures r.Some? ==> currentStepIndex < |steps| && r.value == steps[currentStepIndex]
    {
      Current(steps, Position())
    }

    /// `next_step`.
    method NextStep()
      requires Valid()
      modifies this
      ensures Valid()
      ensures Position() == Next(old(Position()), |steps|)
      ensures steps == old(steps) && input == old(input)
    {
      if currentStepIndex + 1 < |steps| {
        currentStepIndex := currentStepIndex + 1;
      } else {
        isPlaying := false;
      }
    }

    /// `prev_step`.
    method PrevStep()
      requires Valid()
      modifies this
      ensures Valid()
      ensures Position() == Prev(old(Position()))
      ensures steps == old(steps) && input == old(input)
    {
      if currentStepIndex > 0 {
        currentStepIndex := currentStepIndex - 1;
      }
    }

    /// `toggle_play`.
    method TogglePlay()
      requires Valid()
      modifies this
      ensures Valid()
      ensures Position() == Toggle(old(Position()))
      ensures steps == old(steps) && input == old(input)
    {
      isPlaying := !isPlaying;
    }
  }

  /// The shape of the recorded steps: none exactly for empty input,
  /// otherwise five in display order, all carrying the byte counts of the
  /// input (`ByteCountsKeys` and `ByteCountsTable` say what they hold);
  /// probabilities present from the second step and contributions from the
  /// third, each on exactly the counted keys; and the sums zero in the first
  /// three steps.
  lemma EntropyStepsShape(data: seq<byte>, nx: Numerics)
    ensures EntropyStepsOf(data, nx) == [] <==> data == []
    ensures data != [] ==>
      var steps := EntropyStepsOf(data, nx);
      |steps| == 5 &&
      forall i :: 0 <= i < 5 ==>
        steps[i].stepType == STEP_ORDER[i] &&
        steps[i].byteCounts == ByteCounts(data) &&
        steps[i].probabilities.Keys == (if i < 1 then {} else ByteCounts(data).Keys) &&
        steps[i].entropyContributions.Keys == (if i < 2 then {} else ByteCounts(data).Keys) &&
        (i < 3 ==> steps[i].currentEntropySum == steps[i].totalEntropy == steps[i].maxEntropy == 0.0)
  {
  }

  /// The probabilities of a non-empty input add up to one.
  lemma ProbabilitiesSumToOne(data: seq<byte>)
    requires data != []
    ensures SumValues(ProbabilitiesOf(ByteCounts(data), |data|)) == 1.0
  {
    var counts := ByteCounts(data);
    ProbabilitySums(counts, |data|, 256);
    ByteCountsTable(data);
    assert AsTable(counts)[..256] == AsTable(counts);
    SelfRatio(|data| as real);
  }

  lemma SelfRatio(n: real)
    requires n > 0.0
    ensures n / n == 1.0
  {
  }

  /// Summing the probabilities of the first `k` byte values gives their
  /// counts over `n`.
  lemma {:induction false} ProbabilitySums(counts: map<ByteValue, nat>, n: nat, k: nat)
    requires n > 0 && k <= 256
    ensures SumBelow(ProbabilitiesOf(counts, n), k) == Total(AsTable(counts)[..k]) as real / n as real
  {
    if k > 0 {
      var probs := ProbabilitiesOf(counts, n);
      var table := AsTable(counts);
      ProbabilitySums(counts, n, k - 1);
      assert table[..k][..k - 1] == table[..k - 1];
      var c := table[k - 1];
      ProbabilityAt(counts, n, k - 1);
      assert Total(table[..k]) == Total(table[..k - 1]) + c;
      AddFractions(Total(table[..k - 1]) as real, c as real, n as real);
    }
  }

  /// The probability stored under `v` is its bucket of the count table over `n`.
  lemma ProbabilityAt(counts: map<ByteValue, nat>, n: nat, v: nat)
    requires n > 0 && v < 256
    ensures ValueAt(ProbabilitiesOf(counts, n), v) == AsTable(counts)[v] as real / n as real
  {
  }

  lemma AddFractions(a: real, b: real, n: real)
    requires n > 0.0
    ensures a / n + b / n == (a + b) / n
  {
  }

  /// The view's total is the Shannon entropy the quality metrics report for
  /// the same bytes (up to the order in which floating-point terms are added).
  lemma TotalIsShannon(data: seq<byte>, nx: Numerics)
    requires data != []
    ensures EntropyStepsOf(data, nx)[3].totalEntropy == Metrics.Shannon(data, nx)
    ensures EntropyStepsOf(data, nx)[4].totalEntropy == Metrics.Shannon(data, nx)
  {
    var counts := ByteCounts(data);
    ContributionSums(counts, |data|, nx, 256);
    assert AsTable(counts)[..256] == AsTable(counts);
  }

  /// Summing the contributions of the first `k` byte values gives the
  /// metrics' entropy sum over the first `k` buckets of the count table.
  lemma {:induction false} ContributionSums(counts: map<ByteValue, nat>, n: nat, nx: Numerics, k: nat)
    requires n > 0 && k <= 256
    ensures SumBelow(ContributionsOf(ProbabilitiesOf(counts, n), nx), k)
      == Metrics.EntropySum(AsTable(counts)[..k], n, nx)
  {
    if k > 0 {
      ContributionSums(counts, n, nx, k - 1);
      assert AsTable(counts)[..k][..k - 1] == AsTable(counts)[..k - 1];
      ContributionAt(counts, n, nx, k - 1);
    }
  }

  /// The contribution stored under `v` is minus the metrics' `p log2 p`
  /// of its bucket.
  lemma ContributionAt(counts: map<ByteValue, nat>, n: nat, nx: Numerics, v: nat)
    requires n > 0 && v < 256
    ensures ValueAt(ContributionsOf(ProbabilitiesOf(counts, n), nx), v)
      == -Metrics.PLogP(AsTable(counts)[v], n, nx)
  {
    var key := v as ByteValue;
    if key !in counts {
      assert AsTable(counts)[v] == 0;
    }
  }

  /// The largest possible entropy is `log2` of the number of distinct byte
  /// values, of which a non-empty input has at least one.
  lemma MaxEntropyOfDistinctValues(data: seq<byte>, nx: Numerics)
    requires data != []
    ensures |ByteCounts(data)| >= 1
    ensures EntropyStepsOf(data, nx)[3].maxEntropy == nx.log2(|ByteCounts(data)| as real)
  {
    ByteCountsKeys(data, data[0]);
    var counts := ByteCounts(data);
    assert data[0] as int as ByteValue in counts;
    assert |ProbabilitiesOf(counts, |data|)| == |counts|;
  }
}
