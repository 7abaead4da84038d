/// The statistical test battery: simplified forms of the Frequency (monobit),
/// Runs and Longest-Run-of-Ones tests of NIST SP 800-22 Rev. 1a (sections
/// 2.1, 2.3 and 2.4), a byte-level chi-square test and a two-bit serial test
/// (section 2.11 restricted to overlapping 2-bit patterns).
///
/// Every test expands the bytes into bits least-significant bit first, builds
/// an exact integer statistic and hands it to a special function. The
/// `...Outcome` functions state which statistic each test produces (or the 0.0
/// of its guard); the methods are the counting loops, proved to compute it.
module Nist {
  import opened Bytes
  import opened Statistics
  import opened SpecialFunctions

  // ---------------------------------------------------------------------
  // Frequency (monobit) test
  // ---------------------------------------------------------------------

  /// The monobit sum: +1 for every one bit and -1 for every zero bit.
  function MonobitSum(data: seq<byte>): int
  {
    2 * Ones(LsbBits(data)) - 8 * |data|
  }

  /// What the frequency test evaluates: 0.0 for empty input, otherwise
  /// `erfc(|sum| / sqrt(n) / SQRT_2)` over the `n = 8 N` bits.
  function FrequencyOutcome(data: seq<byte>): (r: PValue)
    ensures r.WellFormed()
  {
    if data == [] then Zero else Monobit(MonobitSum(data), 8 * |data|)
  }

  /// `frequency_test`: the nested loop over bytes and their eight bits,
  /// least-significant first, adding or subtracting one per bit.
  method FrequencyTest(data: seq<byte>, nx: Numerics) returns (p: real)
    requires nx.Valid()
    ensures data == [] ==> p == 0.0
    ensures p == Evaluate(FrequencyOutcome(data), nx)
  {
    if |data| == 0 {
      return 0.0;
    }
    ghost var bits := LsbBits(data);
    ghost var seen := 0;
    var sum := 0;
    var j := 0;
    while j < |data|
      invariant 0 <= j <= |data| && seen == 8 * j
      invariant sum == 2 * Ones(bits[..seen]) - seen
    {
      var i := 0;
      while i < 8
        invariant 0 <= i <= 8 && seen == 8 * j + i
        invariant sum == 2 * Ones(bits[..seen]) - seen
      {
        MonobitStep(data, j, i);
        if Bit(data[j], i) == 1 {
          sum := sum + 1;
        } else {
          sum := sum - 1;
        }
        i := i + 1;
        seen := seen + 1;
      }
      j := j + 1;
    }
    assert bits[..seen] == bits;
    assert Monobit(sum, 8 * |data|) == FrequencyOutcome(data);
    p := Evaluate(Monobit(sum, 8 * |data|), nx);
  }

  lemma MonobitStep(data: seq<byte>, j: nat, i: nat)
    requires j < |data| && i < 8
    ensures Ones(LsbBits(data)[..8 * j + i + 1]) ==
      Ones(LsbBits(data)[..8 * j + i]) + Bit(data[j], i)
  {
    BitExpansions(data, j, i);
    OnesPrefixStep(LsbBits(data), 8 * j + i);
  }

  /// The sum is the number of ones minus the number of zeros, so its
  /// magnitude is at most the number of bits.
  lemma MonobitSumIsOnesMinusZeros(data: seq<byte>)
    ensures MonobitSum(data) == OnesInBytes(data) - (8 * |data| - OnesInBytes(data))
    ensures -8 * |data| <= MonobitSum(data) <= 8 * |data|
  {
    OnesInExpansions(data);
  }

  lemma {:induction false} OnesInRepeat(b: byte, k: nat)
    ensures OnesInBytes(Repeat(b, k)) == k * PopCount(b)
  {
    if k > 0 {
      var r := Repeat(b, k);
      assert r[..k - 1] == Repeat(b, k - 1);
      assert OnesInBytes(r) == OnesInBytes(Repeat(b, k - 1)) + PopCount(b);
      OnesInRepeat(b, k - 1);
      MulSucc(k - 1, PopCount(b));
    }
  }

  lemma MulSucc(k: nat, c: nat)
    ensures (k + 1) * c == k * c + c
  {
  }

  /// 1000 bytes 0xFF: every bit is a one, the sum is 8000.
  lemma MonobitSumAllOnes()
    ensures MonobitSum(Repeat(0xFF, 1000)) == 8000
  {
    MonobitSumIsOnesMinusZeros(Repeat(0xFF, 1000));
    OnesInRepeat(0xFF, 1000);
  }

  /// 1000 bytes 0xAA (10101010): ones and zeros balance, the sum is 0.
  lemma MonobitSumAlternating()
    ensures MonobitSum(Repeat(0xAA, 1000)) == 0
  {
    MonobitSumIsOnesMinusZeros(Repeat(0xAA, 1000));
    OnesInRepeat(0xAA, 1000);
  }

  // ---------------------------------------------------------------------
  // Runs test
  // ---------------------------------------------------------------------

  /// Number of positions `i >= 1` at which `bits[i] != bits[i - 1]`.
  function Transitions(bits: seq<nat>): (r: nat)
    ensures |bits| > 0 ==> r <= |bits| - 1
  {
    if |bits| <= 1 then 0
    else Transitions(bits[..|bits| - 1]) + (if bits[|bits| - 1] != bits[|bits| - 2] then 1 else 0)
  }

  /// The pre-test `|pi - 1/2| >= 2 / sqrt(n)` with `pi = ones / n`.
  predicate RunsPreTestFails(ones: nat, n: nat, nx: Numerics)
    requires n > 0 && nx.Valid()
  {
    Abs(ones as real / n as real - 0.5) >= 2.0 / nx.sqrt(n as real)
  }

  /// What the runs test evaluates: 0.0 for empty input, when the pre-test
  /// fails or when the denominator vanishes; otherwise the runs statistic
  /// with `1 + Transitions` runs.
  function RunsOutcome(data: seq<byte>, nx: Numerics): (r: PValue)
    requires nx.Valid()
    ensures r.WellFormed()
  {
    if data == [] then Zero
    else
      var bits := LsbBits(data);
      var n := |bits|;
      var ones := Ones(bits);
      if RunsPreTestFails(ones, n, nx) then Zero
      else if RunsDenominator(ones, n, nx) == 0.0 then Zero
      else
        RunsDenominatorZero(ones, n, nx);
        Runs(1 + Transitions(bits), ones, n)
  }

  /// `runs_test`: counts the ones, applies the pre-test, counts the runs in
  /// one pass and checks the denominator.
  method RunsTest(data: seq<byte>, nx: Numerics) returns (p: real)
    requires nx.Valid()
    ensures data == [] ==> p == 0.0
    ensures p == Evaluate(RunsOutcome(data, nx), nx)
  {
    if |data| == 0 {
      return 0.0;
    }
    var bits := LsbBits(data);
    var n := |bits|;
    var ones := Ones(bits);
    if RunsPreTestFails(ones, n, nx) {
      return 0.0;
    }
    var runs := CountRuns(bits);
    if RunsDenominator(ones, n, nx) == 0.0 {
      return 0.0;
    }
    RunsDenominatorZero(ones, n, nx);
    p := Evaluate(Runs(runs, ones, n), nx);
  }

  /// The loop `for i in 1..n`, counting one run more at every change of bit.
  method CountRuns(bits: seq<nat>) returns (runs: nat)
    requires |bits| > 0
    ensures runs == 1 + Transitions(bits)
  {
    runs := 1;
    var i := 1;
    while i < |bits|
      invariant 1 <= i <= |bits|
      invariant runs == 1 + Transitions(bits[..i])
    {
      assert bits[..i + 1][..i] == bits[..i];
      if bits[i] != bits[i - 1] {
        runs := runs + 1;
      }
      i := i + 1;
    }
    assert bits[..i] == bits;
  }

  /// A non-empty bit string has between 1 and `|bits|` runs.
  lemma RunsBounds(bits: seq<nat>)
    requires |bits| > 0
    ensures 1 <= 1 + Transitions(bits) <= |bits|
  {
  }

  /// There are no transitions exactly when all bits equal the first: a
  /// single run.
  lemma {:induction false} TransitionsZero(bits: seq<nat>)
    requires |bits| > 0
    ensures Transitions(bits) == 0 <==> forall i :: 0 <= i < |bits| ==> bits[i] == bits[0]
  {
    if |bits| > 1 {
      var init := bits[..|bits| - 1];
      TransitionsZero(init);
      if Transitions(bits) == 0 {
        assert forall i :: 0 <= i < |init| ==> bits[i] == init[i];
      }
    }
  }

  /// The denominator guard only matters for one-byte input: with an all-zero
  /// or all-one sample of two or more bytes the pre-test has already failed,
  /// provided the square root of 16 or more is at least 4.
  lemma RunsDenominatorGuardNeedsOneByte(data: seq<byte>, nx: Numerics)
    requires nx.Valid() && |data| >= 2
    requires forall x: real :: x >= 16.0 ==> nx.sqrt(x) >= 4.0
    requires Ones(LsbBits(data)) == 0 || Ones(LsbBits(data)) == 8 * |data|
    ensures RunsPreTestFails(Ones(LsbBits(data)), 8 * |data|, nx)
  {
    var n := 8 * |data|;
    var s := nx.sqrt(n as real);
    assert s >= 4.0;
    var pi := Ones(LsbBits(data)) as real / n as real;
    assert Abs(pi - 0.5) == 0.5;
    TwoOverRoot(s);
  }

  lemma TwoOverRoot(s: real)
    requires s >= 4.0
    ensures 2.0 / s <= 0.5
  {
  }

  // ---------------------------------------------------------------------
  // Longest run of ones in a block
  // ---------------------------------------------------------------------

  /// The parameters chosen by the bit count: block length `M`, degrees of
  /// freedom `K`, category cut-offs `v` and category probabilities `pi`.
  datatype Regime = Regime(blockSize: nat, df: nat, cutoffs: seq<nat>, probabilities: seq<real>)

  const MIN_LONGEST_RUN_BYTES: nat := 128

  /// The three regimes, switching at 6272 and 75000 bits.
  function RegimeFor(n: nat): (r: Regime)
    ensures r.df == |r.cutoffs| - 1 && |r.probabilities| == |r.cutoffs| >= 2
    ensures r.blockSize > 0 && AllPositive(r.probabilities)
    ensures n < 6272 ==> r.blockSize == 8 && r.df == 3 && r.cutoffs == [1, 2, 3, 4]
    ensures 6272 <= n < 75000 ==> r.blockSize == 128 && r.df == 5 && r.cutoffs == [4, 5, 6, 7, 8, 9]
    ensures 75000 <= n ==> r.blockSize == 10000 && r.df == 6 && r.cutoffs == [10, 11, 12, 13, 14, 15, 16]
    ensures n >= 8 * MIN_LONGEST_RUN_BYTES ==> n / r.blockSize >= 1
  {
    if n < 6272 then
      Regime(8, 3, [1, 2, 3, 4], [0.2148, 0.3672, 0.2305, 0.1875])
    else if n < 75000 then
      Regime(128, 5, [4, 5, 6, 7, 8, 9], [0.1174, 0.2430, 0.2493, 0.1752, 0.1027, 0.1124])
    else
      Regime(10000, 6, [10, 11, 12, 13, 14, 15, 16], [0.0882, 0.2092, 0.2483, 0.1933, 0.1208, 0.0675, 0.0727])
  }

  /// Length of the run of ones at the end of `s`.
  function TrailingOnes(s: seq<nat>): (r: nat)
    ensures r <= |s|
  {
    if s == [] || s[|s| - 1] != 1 then 0 else TrailingOnes(s[..|s| - 1]) + 1
  }

  /// Length of the longest run of ones in `s`: the best trailing run over
  /// all prefixes.
  function LongestOnes(s: seq<nat>): (r: nat)
    ensures r <= |s|
  {
    if s == [] then 0 else Max(LongestOnes(s[..|s| - 1]), TrailingOnes(s))
  }

  predicate AllOnes(s: seq<nat>)
  {
    forall k :: 0 <= k < |s| ==> s[k] == 1
  }

  lemma {:induction false} TrailingOnesAreOnes(s: seq<nat>)
    ensures AllOnes(s[|s| - TrailingOnes(s)..])
  {
    if s != [] && s[|s| - 1] == 1 {
      var init := s[..|s| - 1];
      TrailingOnesAreOnes(init);
      assert s[|s| - TrailingOnes(s)..] == init[|init| - TrailingOnes(init)..] + [1];
    }
  }

  lemma {:induction false} TrailingOnesIsLongestSuffix(s: seq<nat>, i: nat)
    requires i <= |s| && AllOnes(s[i..])
    ensures |s| - i <= TrailingOnes(s)
  {
    if i < |s| {
      var init := s[..|s| - 1];
      assert s[|s| - 1] == s[i..][|s| - 1 - i];
      assert init[i..] == s[i..][..|s| - 1 - i];
      TrailingOnesIsLongestSuffix(init, i);
    }
  }

  /// `s` holds a stretch of `len` ones starting at `i`.
  predicate OnesStretchAt(s: seq<nat>, i: int, len: nat)
  {
    0 <= i <= |s| - len && AllOnes(s[i..i + len])
  }

  /// `LongestOnes` is the length of the longest stretch of ones: no
  /// stretch of ones is longer, and one stretch has exactly that length.
  lemma {:induction false} LongestOnesIsLongest(s: seq<nat>)
    ensures forall i, j :: 0 <= i <= j <= |s| && AllOnes(s[i..j]) ==> j - i <= LongestOnes(s)
    ensures exists i :: OnesStretchAt(s, i, LongestOnes(s))
  {
    if s == [] {
      assert OnesStretchAt(s, 0, 0);
    } else {
      var init := s[..|s| - 1];
      LongestOnesIsLongest(init);
      forall i, j | 0 <= i <= j <= |s| && AllOnes(s[i..j])
        ensures j - i <= LongestOnes(s)
      {
        if j < |s| {
          assert s[i..j] == init[i..j];
        } else {
          assert s[i..] == s[i..j];
          TrailingOnesIsLongestSuffix(s, i);
        }
      }
      if LongestOnes(init) >= TrailingOnes(s) {
        var i :| OnesStretchAt(init, i, LongestOnes(init));
        assert s[i..i + LongestOnes(s)] == init[i..i + LongestOnes(init)];
        assert OnesStretchAt(s, i, LongestOnes(s));
      } else {
        TrailingOnesAreOnes(s);
        var i := |s| - TrailingOnes(s);
        assert s[i..i + LongestOnes(s)] == s[|s| - TrailingOnes(s)..];
        assert OnesStretchAt(s, i, LongestOnes(s));
      }
    }
  }

  /// The index `position(|&v| run <= v)` returns: the first cut-off at
  /// least `run`, or `|cutoffs|` when there is none.
  function FirstCovering(run: nat, cutoffs: seq<nat>): (r: nat)
    ensures r <= |cutoffs|
    ensures forall i :: 0 <= i < r ==> run > cutoffs[i]
    ensures r < |cutoffs| ==> run <= cutoffs[r]
  {
    if cutoffs == [] then 0
    else if run <= cutoffs[0] then 0
    else 1 + FirstCovering(run, cutoffs[1..])
  }

  /// The category of a block: the first cut-off at least its longest run,
  /// or the last category when the run exceeds every cut-off.
  function Category(run: nat, cutoffs: seq<nat>): (c: nat)
    requires |cutoffs| > 0
    ensures c < |cutoffs|
    ensures forall i :: 0 <= i < c ==> run > cutoffs[i]
    ensures run <= cutoffs[c] || (c == |cutoffs| - 1 && forall i :: 0 <= i < |cutoffs| ==> run > cutoffs[i])
  {
    var p := FirstCovering(run, cutoffs);
    if p < |cutoffs| then p else |cutoffs| - 1
  }

  lemma BlockInRange(b: nat, m: nat, n: nat)
    requires m > 0 && b < n / m
    ensures b * m + m <= n
  {
    assert (b + 1) * m <= (n / m) * m;
  }

  /// Block `b`: bits `b M` up to `(b + 1) M`.
  function Block(bits: seq<nat>, m: nat, b: nat): (block: seq<nat>)
    requires m > 0 && b < |bits| / m
    ensures |block| == m
  {
    BlockInRange(b, m, |bits|);
    bits[b * m..b * m + m]
  }

  /// The category of every complete block, in order; leftover bits are ignored.
  function BlockCategories(bits: seq<nat>, r: Regime): (cats: seq<int>)
    requires r.blockSize > 0 && |r.cutoffs| > 0
    ensures |cats| == |bits| / r.blockSize
    ensures forall b :: 0 <= b < |cats| ==> 0 <= cats[b] < |r.cutoffs|
  {
    seq(|bits| / r.blockSize, b requires 0 <= b < |bits| / r.blockSize =>
      Category(LongestOnes(Block(bits, r.blockSize, b)), r.cutoffs))
  }

  /// The expected tallies `blocks * pi_i`.
  function Expected(blocks: nat, probabilities: seq<real>): (e: seq<real>)
    requires blocks > 0 && AllPositive(probabilities)
    ensures |e| == |probabilities| && AllPositive(e)
  {
    seq(|probabilities|, i requires 0 <= i < |probabilities| => blocks as real * probabilities[i])
  }

  /// What the longest-run test evaluates: 0.0 below 128 bytes, otherwise
  /// the chi-square tail of the category tallies against their expectations,
  /// with `K` degrees of freedom.
  function LongestRunOutcome(data: seq<byte>): (r: PValue)
    ensures r.WellFormed()
  {
    if |data| < MIN_LONGEST_RUN_BYTES then Zero
    else
      var bits := LsbBits(data);
      var regime := RegimeFor(|bits|);
      var blocks := |bits| / regime.blockSize;
      var observed := Tally(BlockCategories(bits, regime), |regime.cutoffs|);
      ChiSquareTail(Pearson(observed, Expected(blocks, regime.probabilities)), regime.df)
  }

  /// Tallying one more entry of `cats`.
  lemma TallyPrefixSnoc(cats: seq<int>, b: nat, k: nat)
    requires b < |cats| && 0 <= cats[b] < k
    ensures Tally(cats[..b + 1], k) == Tally(cats[..b], k)[cats[b] := Tally(cats[..b], k)[cats[b]] + 1]
  {
    assert cats[..b + 1] == cats[..b] + [cats[b]];
    TallySnoc(cats[..b], cats[b], k);
  }

  /// One more block tallied: its category's count goes up by one.
  lemma TallySnoc(s: seq<int>, x: int, k: nat)
    requires 0 <= x < k
    ensures Tally(s + [x], k) == Tally(s, k)[x := Tally(s, k)[x] + 1]
  {
    forall c | 0 <= c < k
      ensures Tally(s + [x], k)[c] == Tally(s, k)[x := Tally(s, k)[x] + 1][c]
    {
      CountSnoc(s, x, c);
    }
  }

  /// The per-block scan `for &bit in block`: the current run of ones and
  /// the longest so far.
  method LongestRunInBlock(block: seq<nat>) returns (maxRun: nat)
    ensures maxRun == LongestOnes(block)
  {
    maxRun := 0;
    var currentRun := 0;
    var k := 0;
    while k < |block|
      invariant 0 <= k <= |block|
      invariant maxRun == LongestOnes(block[..k])
      invariant currentRun == TrailingOnes(block[..k])
    {
      assert block[..k + 1][..k] == block[..k];
      if block[k] == 1 {
        currentRun := currentRun + 1;
        maxRun := Max(maxRun, currentRun);
      } else {
        currentRun := 0;
      }
      k := k + 1;
    }
    assert block[..k] == block;
  }

  /// `longest_run_test`: picks the regime, tallies the categories of the
  /// complete blocks and takes the chi-square tail.
  method LongestRunTest(data: seq<byte>, nx: Numerics) returns (p: real)
    requires nx.Valid()
    ensures |data| < MIN_LONGEST_RUN_BYTES ==> p == 0.0
    ensures p == Evaluate(LongestRunOutcome(data), nx)
  {
    if |data| < MIN_LONGEST_RUN_BYTES {
      return 0.0;
    }
    var bits := LsbBits(data);
    var regime := RegimeFor(|bits|);
    var numBlocks := |bits| / regime.blockSize;
    var vObs := TallyBlocks(bits, regime);
    var chi := PearsonStatistic(vObs, Expected(numBlocks, regime.probabilities));
    assert ChiSquareTail(chi, regime.df) == LongestRunOutcome(data);
    p := Evaluate(ChiSquareTail(chi, regime.df), nx);
  }

  /// The loop of `longest_run_test` over the complete blocks: the longest
  /// run of ones of each block picks a category whose count goes up by one.
  method TallyBlocks(bits: seq<nat>, regime: Regime) returns (counts: seq<nat>)
    requires regime.blockSize > 0 && |regime.cutoffs| > 0
    ensures counts == Tally(BlockCategories(bits, regime), |regime.cutoffs|)
  {
    var m := regime.blockSize;
    var numBlocks := |bits| / m;
    ghost var cats := BlockCategories(bits, regime);
    counts := seq(|regime.cutoffs|, _ => 0);
    var blockIdx := 0;
    while blockIdx < numBlocks
      invariant 0 <= blockIdx <= numBlocks
      invariant counts == Tally(cats[..blockIdx], |regime.cutoffs|)
    {
      var maxRun := LongestRunInBlock(Block(bits, m, blockIdx));
      var category := Category(maxRun, regime.cutoffs);
      TallyPrefixSnoc(cats, blockIdx, |regime.cutoffs|);
      counts := counts[category := counts[category] + 1];
      blockIdx := blockIdx + 1;
    }
    assert cats[..numBlocks] == cats;
  }

  /// The category tallies account for every complete block exactly once.
  lemma CategoryTalliesTotal(bits: seq<nat>, r: Regime)
    requires r.blockSize > 0 && |r.cutoffs| > 0
    ensures Total(Tally(BlockCategories(bits, r), |r.cutoffs|)) == |bits| / r.blockSize
  {
    TallyTotal(BlockCategories(bits, r), |r.cutoffs|);
  }

  // ---------------------------------------------------------------------
  // Chi-square test over byte values
  // ---------------------------------------------------------------------

  /// What the chi-square test evaluates: 0.0 for empty input, otherwise the
  /// tail of the 256-bucket statistic with 255 degrees of freedom.
  function ChiSquareOutcome(data: seq<byte>): (r: PValue)
    ensures r.WellFormed()
  {
    if data == [] then Zero else ChiSquareTail(ByteChiSquare(data), 255)
  }

  /// `chi_square_test`: the 256-bucket byte histogram against `N / 256`.
  method ChiSquareTest(data: seq<byte>, nx: Numerics) returns (p: real)
    requires nx.Valid()
    ensures data == [] ==> p == 0.0
    ensures p == Evaluate(ChiSquareOutcome(data), nx)
  {
    if |data| == 0 {
      return 0.0;
    }
    var freq := ByteHistogram(data);
    var expected := |data| as real / 256.0;
    var chi := PearsonStatistic(freq, Uniform(expected, 256));
    p := Evaluate(ChiSquareTail(chi, 255), nx);
  }

  // ---------------------------------------------------------------------
  // Serial test (overlapping two-bit patterns)
  // ---------------------------------------------------------------------

  /// The `n - 1` overlapping patterns `(bits[i] << 1) | bits[i + 1]`.
  function Patterns(bits: seq<nat>): (r: seq<int>)
    requires |bits| > 0
    ensures |r| == |bits| - 1
  {
    seq(|bits| - 1, i requires 0 <= i < |bits| - 1 => 2 * bits[i] + bits[i + 1])
  }

  /// Every pattern of a bit string is one of 0, 1, 2 and 3.
  lemma PatternsInRange(bits: seq<nat>)
    requires |bits| > 0 && IsBitString(bits)
    ensures forall i :: 0 <= i < |Patterns(bits)| ==> 0 <= Patterns(bits)[i] < 4
  {
  }

  const MIN_SERIAL_BYTES: nat := 2

  /// What the serial test evaluates: 0.0 below two bytes, otherwise the
  /// tail of the 4-bucket pattern statistic against `(n - 1) / 4`, with 3
  /// degrees of freedom.
  function SerialOutcome(data: seq<byte>): (r: PValue)
    ensures r.WellFormed()
  {
    if |data| < MIN_SERIAL_BYTES then Zero
    else
      var bits := LsbBits(data);
      var expected := (|bits| - 1) as real / 4.0;
      ChiSquareTail(Pearson(Tally(Patterns(bits), 4), Uniform(expected, 4)), 3)
  }

  /// `serial_test`: tallies the overlapping patterns and takes the tail.
  method SerialTest(data: seq<byte>, nx: Numerics) returns (p: real)
    requires nx.Valid()
    ensures |data| < MIN_SERIAL_BYTES ==> p == 0.0
    ensures p == Evaluate(SerialOutcome(data), nx)
  {
    if |data| < MIN_SERIAL_BYTES {
      return 0.0;
    }
    var bits := LsbBits(data);
    var n := |bits|;
    if n < 2 {
      return 0.0;
    }
    BitExpansionIsBitString(data);
    PatternsInRange(bits);
    var freq := Histogram(Patterns(bits), 4);
    var expected := (n - 1) as real / 4.0;
    var chi := PearsonStatistic(freq, Uniform(expected, 4));
    p := Evaluate(ChiSquareTail(chi, 3), nx);
  }

  lemma BitExpansionIsBitString(data: seq<byte>)
    ensures IsBitString(LsbBits(data))
  {
  }

  /// The four pattern counts cover the `n - 1` overlapping pairs.
  lemma PatternTalliesTotal(data: seq<byte>)
    requires |data| >= MIN_SERIAL_BYTES
    ensures Total(Tally(Patterns(LsbBits(data)), 4)) == 8 * |data| - 1
  {
    BitExpansionIsBitString(data);
    PatternsInRange(LsbBits(data));
    TallyTotal(Patterns(LsbBits(data)), 4);
  }

  // ---------------------------------------------------------------------
  // The whole battery
  // ---------------------------------------------------------------------

  /// `run_all_tests`: the five tests on the same data, in a fixed order and
  /// under fixed names.
  method RunAllTests(data: seq<byte>, nx: Numerics) returns (results: seq<(string, real)>)
    requires nx.Valid()
    ensures results == [
      ("Frequency Test", Evaluate(FrequencyOutcome(data), nx)),
      ("Runs Test", Evaluate(RunsOutcome(data, nx), nx)),
      ("Longest Run Test", Evaluate(LongestRunOutcome(data), nx)),
      ("Chi-Square Test", Evaluate(ChiSquareOutcome(data), nx)),
      ("Serial Test", Evaluate(SerialOutcome(data), nx))]
  {
    var frequency := FrequencyTest(data, nx);
    var runs := RunsTest(data, nx);
    var longest := LongestRunTest(data, nx);
    var chiSquare := ChiSquareTest(data, nx);
    var serial := SerialTest(data, nx);
    results := [
      ("Frequency Test", frequency),
      ("Runs Test", runs),
      ("Longest Run Test", longest),
      ("Chi-Square Test", chiSquare),
      ("Serial Test", serial)];
  }
}
