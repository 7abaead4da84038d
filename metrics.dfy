/// Descriptive quality metrics of a byte sample: Shannon entropy and
/// min-entropy from the byte-frequency dictionary, the uniformity chi-square
/// statistic, the mean byte value, the longest run of identical bits, the
/// full report `analyze` draws from a source, and the combined score.
module Metrics {
  import opened Bytes
  import opened Statistics
  import opened SpecialFunctions
  import opened Entropy

  /// The quality report.
  datatype QualityMetrics = QualityMetrics(
    shannonEntropy: real,
    minEntropy: real,
    byteFrequency: map<ByteValue, nat>,
    totalBytes: nat,
    chiSquare: real,
    mean: real,
    longestRun: nat)

  // ---------------------------------------------------------------------
  // Shannon entropy
  // ---------------------------------------------------------------------

  /// `p log2 p` for a bucket of `count` out of `n`, when `p > 0`.
  function PLogP(count: nat, n: nat, nx: Numerics): real
    requires n > 0
  {
    var p := count as real / n as real;
    if p > 0.0 then p * nx.log2(p) else 0.0
  }

  /// `entropy -= p log2 p` over the buckets of a table, in bucket order.
  function EntropySum(table: seq<nat>, n: nat, nx: Numerics): real
    requires n > 0
  {
    if table == [] then 0.0
    else EntropySum(table[..|table| - 1], n, nx) - PLogP(table[|table| - 1], n, nx)
  }

  /// The Shannon entropy of a sample in bits per byte; 0.0 when empty.
  function Shannon(data: seq<byte>, nx: Numerics): real
  {
    if data == [] then 0.0 else EntropySum(AsTable(ByteCounts(data)), |data|, nx)
  }

  /// `shannon_entropy`: builds the dictionary and subtracts `p log2 p` for
  /// every byte value present in it.
  method ShannonEntropy(data: seq<byte>, nx: Numerics) returns (entropy: real)
    ensures data == [] ==> entropy == 0.0
    ensures entropy == Shannon(data, nx)
  {
    if |data| == 0 {
      return 0.0;
    }
    var freq := FrequencyMap(data);
    var len := |data| as real;
    ghost var table := AsTable(freq);
    entropy := 0.0;
    var v := 0;
    while v < 256
      invariant 0 <= v <= 256
      invariant entropy == EntropySum(table[..v], |data|, nx)
    {
      EntropySumStep(table, v, |data|, nx);
      var key := v as ByteValue;
      if key in freq {
        assert table[v] == freq[key];
        var p := freq[key] as real / len;
        if p > 0.0 {
          entropy := entropy - p * nx.log2(p);
        }
      } else {
        assert table[v] == 0;
      }
      v := v + 1;
    }
    assert table[..v] == table;
  }

  /// One more bucket of the table summed.
  lemma EntropySumStep(table: seq<nat>, v: nat, n: nat, nx: Numerics)
    requires v < |table| && n > 0
    ensures EntropySum(table[..v + 1], n, nx) == EntropySum(table[..v], n, nx) - PLogP(table[v], n, nx)
  {
    assert table[..v + 1][..v] == table[..v];
  }

  /// A table whose every bucket is empty or holds the whole sample has no
  /// entropy, given that `log2 1 = 0`.
  lemma {:induction false} EntropySumOfOneValue(table: seq<nat>, n: nat, nx: Numerics)
    requires n > 0 && nx.log2(1.0) == 0.0
    requires forall i :: 0 <= i < |table| ==> table[i] == 0 || table[i] == n
    ensures EntropySum(table, n, nx) == 0.0
  {
    if table != [] {
      EntropySumOfOneValue(table[..|table| - 1], n, nx);
      var last := table[|table| - 1];
      assert last as real / n as real == if last == 0 then 0.0 else 1.0;
    }
  }

  lemma CountOfRepeat(b: byte, k: nat, v: int)
    ensures Occurrences(Repeat(b, k), v) == if v == b as int then k else 0
    decreases k
  {
    if k > 0 {
      assert Repeat(b, k) == Repeat(b, k - 1) + [b];
      OccurrencesSnoc(Repeat(b, k - 1), b, v);
      CountOfRepeat(b, k - 1, v);
    }
  }

  /// A sample of one repeated byte has zero Shannon entropy.
  lemma ShannonOfConstant(b: byte, k: nat, nx: Numerics)
    requires k > 0 && nx.log2(1.0) == 0.0
    ensures Shannon(Repeat(b, k), nx) == 0.0
  {
    var data := Repeat(b, k);
    ByteCountsTable(data);
    var table := AsTable(ByteCounts(data));
    forall v | 0 <= v < 256
      ensures table[v] == 0 || table[v] == k
    {
      CountOfRepeat(b, k, v);
    }
    EntropySumOfOneValue(table, k, nx);
  }

  /// A table of ones out of 256, given `log2(1/256) = -8`, accumulates
  /// `1/32` bit per bucket.
  lemma {:induction false} EntropySumOfOnes(table: seq<nat>, nx: Numerics)
    requires nx.log2(1.0 / 256.0) == -8.0
    requires forall i :: 0 <= i < |table| ==> table[i] == 1
    ensures EntropySum(table, 256, nx) == |table| as real / 32.0
  {
    if table != [] {
      EntropySumOfOnes(table[..|table| - 1], nx);
      assert PLogP(1, 256, nx) == -1.0 / 32.0;
    }
  }

  /// Every byte value once: the maximum of 8 bits per byte, given that
  /// `log2(1/256) = -8`.
  lemma ShannonOfAllBytes(nx: Numerics)
    requires nx.log2(1.0 / 256.0) == -8.0
    ensures Shannon(AllBytes(), nx) == 8.0
  {
    var data := AllBytes();
    ByteCountsTable(data);
    ValuesOfAllBytes();
    var table := AsTable(ByteCounts(data));
    forall v | 0 <= v < 256
      ensures table[v] == 1
    {
      CountNaturals(256, v);
    }
    EntropySumOfOnes(table, nx);
  }

  // ---------------------------------------------------------------------
  // Min-entropy
  // ---------------------------------------------------------------------

  /// The largest entry of a table, 0 when it is empty.
  function MaxOf(t: seq<nat>): (r: nat)
    ensures forall i :: 0 <= i < |t| ==> t[i] <= r
    ensures t != [] ==> r in t
    ensures t == [] ==> r == 0
  {
    if t == [] then 0 else Max(MaxOf(t[..|t| - 1]), t[|t| - 1])
  }

  /// `freq.values().max().unwrap_or(0)`: the count of the most frequent byte.
  function MaxCount(data: seq<byte>): nat
  {
    MaxOf(AsTable(ByteCounts(data)))
  }

  /// The min-entropy `-log2(max_count / N)`; 0.0 when empty.
  function MinEntropyOf(data: seq<byte>, nx: Numerics): real
  {
    if data == [] then 0.0
    else
      var maxFreq := MaxCount(data);
      if maxFreq > 0 then -nx.log2(maxFreq as real / |data| as real) else 0.0
  }

  /// `min_entropy`.
  method MinEntropy(data: seq<byte>, nx: Numerics) returns (h: real)
    ensures data == [] ==> h == 0.0
    ensures h == MinEntropyOf(data, nx)
  {
    if |data| == 0 {
      return 0.0;
    }
    var freq := FrequencyMap(data);
    var maxFreq := MaxOf(AsTable(freq));
    var total := |data| as real;
    if maxFreq > 0 {
      h := -nx.log2(maxFreq as real / total);
    } else {
      h := 0.0;
    }
  }

  /// For a non-empty sample the maximum count lies in `1..N`, is the count
  /// of some byte value, and no byte value occurs more often.
  lemma MaxCountIsMostFrequent(data: seq<byte>)
    requires data != []
    ensures 1 <= MaxCount(data) <= |data|
    ensures exists v :: 0 <= v < 256 && Occurrences(data, v) == MaxCount(data)
    ensures forall v :: 0 <= v < 256 ==> Occurrences(data, v) <= MaxCount(data)
  {
    ByteCountsTable(data);
    var table := AsTable(ByteCounts(data));
    assert table == Tally(Values(data), 256);
    var v0 := data[0] as int;
    assert Values(data)[0] == v0;
    CountPositive(Values(data), v0);
    assert table[v0] >= 1;
    var i :| 0 <= i < 256 && table[i] == MaxCount(data);
    assert Occurrences(data, i) == MaxCount(data);
    forall v | 0 <= v < 256
      ensures Occurrences(data, v) <= MaxCount(data)
    {
      assert table[v] == Occurrences(data, v);
    }
  }

  lemma {:induction false} CountTwoValues(s: seq<int>, v: int, w: int)
    requires v != w
    ensures Count(s, v) + Count(s, w) <= |s|
  {
    if s != [] {
      CountTwoValues(s[..|s| - 1], v, w);
    }
  }

  /// The sample `[1, 2, 3, 4, 5, 1, 1, 1]`: the byte 1 occurs 4 times out of 8.
  lemma MaxCountExample()
    ensures MaxCount([1, 2, 3, 4, 5, 1, 1, 1]) == 4
  {
    var data: seq<byte> := [1, 2, 3, 4, 5, 1, 1, 1];
    var values := Values(data);
    assert values == [1, 2, 3, 4, 5, 1, 1, 1];
    CountOfOneInExample(values);
    ByteCountsTable(data);
    var table := AsTable(ByteCounts(data));
    assert table[1] == Count(values, 1) == 4;
    forall v | 0 <= v < 256
      ensures table[v] <= 4
    {
      assert table[v] == Count(values, v);
      if v != 1 {
        CountTwoValues(values, 1, v);
      }
    }
  }

  lemma CountOfOneInExample(values: seq<int>)
    requires values == [1, 2, 3, 4, 5, 1, 1, 1]
    ensures Count(values, 1) == 4
  {
    forall k | 0 <= k < 8
      ensures Count(values[..k + 1], 1) == Count(values[..k], 1) + (if values[k] == 1 then 1 else 0)
    {
      assert values[..k + 1] == values[..k] + [values[k]];
      CountSnoc(values[..k], values[k], 1);
    }
    assert Count(values[..0], 1) == 0;
    assert Count(values[..1], 1) == 1;
    assert Count(values[..2], 1) == 1;
    assert Count(values[..3], 1) == 1;
    assert Count(values[..4], 1) == 1;
    assert Count(values[..5], 1) == 1;
    assert Count(values[..6], 1) == 2;
    assert Count(values[..7], 1) == 3;
    assert Count(values[..8], 1) == 4;
    assert values[..8] == values;
  }

  /// The same sample has min-entropy 1 bit, given that `log2(1/2) = -1`.
  lemma MinEntropyExample(nx: Numerics)
    requires nx.log2(0.5) == -1.0
    ensures MinEntropyOf([1, 2, 3, 4, 5, 1, 1, 1], nx) == 1.0
  {
    MaxCountExample();
  }

  // ---------------------------------------------------------------------
  // Chi-square, mean
  // ---------------------------------------------------------------------

  /// `chi_square`: the uniformity statistic of the byte counts; 0.0 when empty.
  method ChiSquare(data: seq<byte>) returns (chi: real)
    ensures data == [] ==> chi == 0.0
    ensures data != [] ==> chi == ByteChiSquare(data)
    ensures chi >= 0.0
  {
    if |data| == 0 {
      return 0.0;
    }
    var freq := ByteHistogram(data);
    var n := |data| as real;
    var expected := n / 256.0;
    chi := PearsonStatistic(freq, Uniform(expected, 256));
    ByteChiSquareNonNegative(data);
  }

  /// The statistic as the report stores it.
  function ChiSquareOf(data: seq<byte>): real
  {
    if data == [] then 0.0 else ByteChiSquare(data)
  }

  /// `mean`: the sum of the byte values over their number; 0.0 when empty.
  function Mean(data: seq<byte>): (r: real)
    ensures 0.0 <= r <= 255.0
  {
    if data == [] then 0.0
    else
      SumBounds(data);
      MeanBounds(Sum(data), |data|);
      Sum(data) as real / |data| as real
  }

  lemma MeanBounds(sum: int, n: nat)
    requires n > 0 && 0 <= sum <= 255 * n
    ensures 0.0 <= sum as real / n as real <= 255.0
  {
    var q := sum as real / n as real;
    assert q * n as real == sum as real;
    if q > 255.0 {
      assert q * n as real > 255.0 * n as real;
    }
  }

  /// The sample `[0, 128, 255]` has mean `383 / 3`.
  lemma MeanExample()
    ensures Mean([0, 128, 255]) == 383.0 / 3.0
  {
    var data: seq<byte> := [0, 128, 255];
    assert data[..2] == [0, 128] && data[..2][..1] == [0] && data[..2][..1][..0] == [];
    assert Sum(data[..2][..1]) == 0;
    assert Sum(data[..2]) == 128;
    assert Sum(data) == 383;
  }

  // ---------------------------------------------------------------------
  // Longest run of identical bits
  // ---------------------------------------------------------------------

  /// Length of the run of identical bits at the end of `s`.
  function TrailingSame(s: seq<nat>): (r: nat)
    ensures s != [] ==> 1 <= r <= |s|
    ensures s == [] ==> r == 0
  {
    if s == [] then 0
    else if |s| >= 2 && s[|s| - 1] == s[|s| - 2] then TrailingSame(s[..|s| - 1]) + 1
    else 1
  }

  /// Length of the longest run of identical bits.
  function LongestSame(s: seq<nat>): (r: nat)
    ensures s != [] ==> 1 <= r <= |s|
    ensures s == [] ==> r == 0
  {
    if s == [] then 0 else Max(LongestSame(s[..|s| - 1]), TrailingSame(s))
  }

  /// Length of the first run of identical bits.
  function LeadingSame(s: seq<nat>): (r: nat)
    ensures r <= |s|
    ensures s != [] ==> 1 <= r
  {
    if |s| <= 1 then |s|
    else if LeadingSame(s[..|s| - 1]) == |s| - 1 && s[|s| - 1] == s[|s| - 2] then |s|
    else LeadingSame(s[..|s| - 1])
  }

  /// What `longest_run` reports: the first bit is compared with itself, so
  /// the first run counts one more than its length.
  function ReportedLongestRun(bits: seq<nat>): nat
  {
    if bits == [] then 0 else Max(LeadingSame(bits) + 1, LongestSame(bits))
  }

  /// All of `s` is one run exactly when its first run, or its last, covers it.
  lemma {:induction false} OneRun(s: seq<nat>)
    ensures LeadingSame(s) == |s| <==> TrailingSame(s) == |s|
  {
    if |s| >= 2 {
      OneRun(s[..|s| - 1]);
    }
  }

  /// `LeadingSame` is the length of the first run: the bits before it all
  /// equal the first bit, and the next one differs.
  lemma {:induction false} LeadingSameIsFirstRun(s: seq<nat>)
    requires s != []
    ensures forall i :: 0 <= i < LeadingSame(s) ==> s[i] == s[0]
    ensures LeadingSame(s) < |s| ==> s[LeadingSame(s)] != s[0]
  {
    if |s| >= 2 {
      var init := s[..|s| - 1];
      LeadingSameIsFirstRun(init);
    }
  }

  /// `s` holds a stretch of `len` equal bits starting at `i`.
  predicate SameStretchAt(s: seq<nat>, i: int, len: nat)
  {
    0 <= i <= |s| - len && forall k :: i <= k < i + len ==> s[k] == s[i]
  }

  lemma {:induction false} TrailingSameIsStretch(s: seq<nat>)
    requires s != []
    ensures SameStretchAt(s, |s| - TrailingSame(s), TrailingSame(s))
  {
    if |s| >= 2 && s[|s| - 1] == s[|s| - 2] {
      TrailingSameIsStretch(s[..|s| - 1]);
    }
  }

  lemma {:induction false} TrailingSameIsLongestSuffix(s: seq<nat>, i: nat)
    requires i < |s| && SameStretchAt(s, i, |s| - i)
    ensures |s| - i <= TrailingSame(s)
  {
    if i < |s| - 1 {
      var init := s[..|s| - 1];
      assert SameStretchAt(init, i, |init| - i);
      TrailingSameIsLongestSuffix(init, i);
    }
  }

  /// `LongestSame` is the true longest run: no stretch of equal bits is
  /// longer, and one stretch has exactly that length.
  lemma {:induction false} LongestSameIsLongest(s: seq<nat>)
    ensures forall i: int, len: nat :: SameStretchAt(s, i, len) ==> len <= LongestSame(s)
    ensures exists i :: SameStretchAt(s, i, LongestSame(s))
  {
    if s == [] {
      assert SameStretchAt(s, 0, 0);
    } else {
      var init := s[..|s| - 1];
      LongestSameIsLongest(init);
      forall i: int, len: nat | SameStretchAt(s, i, len)
        ensures len <= LongestSame(s)
      {
        if i + len < |s| {
          assert SameStretchAt(init, i, len);
        } else if len > 0 {
          TrailingSameIsLongestSuffix(s, i);
        }
      }
      if LongestSame(init) >= TrailingSame(s) {
        var i :| SameStretchAt(init, i, LongestSame(init));
        assert SameStretchAt(s, i, LongestSame(s));
      } else {
        TrailingSameIsStretch(s);
      }
    }
  }

  /// The quirk: the reported value is the true longest run or one more,
  /// one more exactly when the first run is a longest run, and for `n` bits
  /// it lies in `2..n + 1`.
  lemma ReportedLongestRunQuirk(bits: seq<nat>)
    requires bits != []
    ensures LongestSame(bits) <= ReportedLongestRun(bits) <= LongestSame(bits) + 1
    ensures ReportedLongestRun(bits) == LongestSame(bits) + 1 <==> LeadingSame(bits) == LongestSame(bits)
    ensures 2 <= ReportedLongestRun(bits) <= |bits| + 1
  {
    LeadingSameIsFirstRun(bits);
    LongestSameIsLongest(bits);
    assert SameStretchAt(bits, 0, LeadingSame(bits));
  }

  /// The byte 0x0F (bits 00001111, most significant first): the longest run
  /// is 4, `longest_run` reports 5.
  lemma ReportedLongestRunExample()
    ensures LongestSame(MsbBits([0x0F])) == 4
    ensures ReportedLongestRun(MsbBits([0x0F])) == 5
  {
    var data: seq<byte> := [0x0F];
    var bits := MsbBits(data);
    forall i | 0 <= i < 8
      ensures bits[i] == if i < 4 then 0 else 1
    {
      BitExpansions(data, 0, i);
    }
    LongestSameIsLongest(bits);
    assert SameStretchAt(bits, 0, 4);
    LeadingSameIsFirstRun(bits);
  }

  lemma LeadingSameSnoc(p: seq<nat>, b: nat)
    requires p != []
    ensures LeadingSame(p + [b]) ==
      if LeadingSame(p) == |p| && b == p[|p| - 1] then |p| + 1 else LeadingSame(p)
  {
    assert (p + [b])[..|p|] == p;
  }

  lemma TrailingSameSnoc(p: seq<nat>, b: nat)
    requires p != []
    ensures TrailingSame(p + [b]) == if b == p[|p| - 1] then TrailingSame(p) + 1 else 1
    ensures LongestSame(p + [b]) == Max(LongestSame(p), TrailingSame(p + [b]))
  {
    assert (p + [b])[..|p|] == p;
  }

  /// The scan's state after the bits `p`, whose first bit is `first`:
  /// before any bit, nothing measured and the first bit taken as the last;
  /// after, the longest run so far as reported, and the current run, one
  /// longer while still in the first run.
  predicate ScanState(p: seq<nat>, first: nat, maxRun: nat, currentRun: nat, lastBit: nat)
  {
    if p == [] then maxRun == 0 && currentRun == 1 && lastBit == first
    else
      p[0] == first &&
      lastBit == p[|p| - 1] &&
      maxRun == ReportedLongestRun(p) &&
      currentRun == TrailingSame(p) + (if TrailingSame(p) == |p| then 1 else 0)
  }

  /// One bit of the scan: equal to the last bit it extends the current run
  /// and may raise the maximum, otherwise it starts a new run of 1.
  lemma ScanStep(p: seq<nat>, first: nat, maxRun: nat, currentRun: nat, lastBit: nat, bit: nat)
    requires ScanState(p, first, maxRun, currentRun, lastBit)
    requires p == [] ==> bit == first
    ensures bit == lastBit ==>
      ScanState(p + [bit], first, Max(maxRun, currentRun + 1), currentRun + 1, lastBit)
    ensures bit != lastBit ==> ScanState(p + [bit], first, maxRun, 1, bit)
  {
    if p != [] {
      LeadingSameSnoc(p, bit);
      TrailingSameSnoc(p, bit);
      OneRun(p);
      OneRun(p + [bit]);
    }
  }

  /// The scan's step on bit `7 - i` of byte `j`, as seen in the expansion.
  lemma ScanBit(data: seq<byte>, j: nat, i: nat, first: nat,
                maxRun: nat, currentRun: nat, lastBit: nat)
    requires j < |data| && i < 8 && first == Bit(data[0], 7)
    requires ScanState(MsbBits(data)[..8 * j + 7 - i], first, maxRun, currentRun, lastBit)
    ensures var bit := Bit(data[j], i);
      var p := MsbBits(data)[..8 * j + 8 - i];
      (bit == lastBit ==> ScanState(p, first, Max(maxRun, currentRun + 1), currentRun + 1, lastBit)) &&
      (bit != lastBit ==> ScanState(p, first, maxRun, 1, bit))
  {
    MsbPrefixSnoc(data, j, i);
    ScanStep(MsbBits(data)[..8 * j + 7 - i], first, maxRun, currentRun, lastBit, Bit(data[j], i));
  }

  /// The expansion read one bit further: bit `7 - i` of byte `j` is next,
  /// and the very first bit is the top bit of the first byte.
  lemma MsbPrefixSnoc(data: seq<byte>, j: nat, i: nat)
    requires j < |data| && i < 8
    ensures MsbBits(data)[..8 * j + 8 - i] == MsbBits(data)[..8 * j + 7 - i] + [Bit(data[j], i)]
    ensures MsbBits(data)[..8 * j + 7 - i] == [] ==> Bit(data[j], i) == Bit(data[0], 7)
  {
    var bits := MsbBits(data);
    var seen := 8 * j + 7 - i;
    BitExpansions(data, j, 7 - i);
    assert bits[..seen + 1] == bits[..seen] + [Bit(data[j], i)];
  }

  /// `longest_run`: one continuous scan over the bits, most significant bit
  /// of each byte first, starting with the first bit as the "last" bit.
  method LongestRun(data: seq<byte>) returns (maxRun: nat)
    ensures data == [] ==> maxRun == 0
    ensures maxRun == ReportedLongestRun(MsbBits(data))
  {
    if |data| == 0 {
      return 0;
    }
    ghost var first := Bit(data[0], 7);
    maxRun := 0;
    var currentRun := 1;
    var lastBit := Bit(data[0], 7);
    var j := 0;
    while j < |data|
      invariant 0 <= j <= |data|
      invariant ScanState(MsbBits(data)[..8 * j], first, maxRun, currentRun, lastBit)
    {
      maxRun, currentRun, lastBit := ScanByte(data, j, first, maxRun, currentRun, lastBit);
      j := j + 1;
    }
    assert MsbBits(data)[..8 * j] == MsbBits(data);
  }

  /// The inner loop of `longest_run` over the bits of byte `j`, most
  /// significant first.
  method ScanByte(data: seq<byte>, j: nat, ghost first: nat, maxRun0: nat, currentRun0: nat, lastBit0: nat)
    returns (maxRun: nat, currentRun: nat, lastBit: nat)
    requires j < |data| && first == Bit(data[0], 7)
    requires ScanState(MsbBits(data)[..8 * j], first, maxRun0, currentRun0, lastBit0)
    ensures ScanState(MsbBits(data)[..8 * j + 8], first, maxRun, currentRun, lastBit)
  {
    maxRun, currentRun, lastBit := maxRun0, currentRun0, lastBit0;
    var i := 8;
    while i > 0
      invariant 0 <= i <= 8
      invariant ScanState(MsbBits(data)[..8 * j + 8 - i], first, maxRun, currentRun, lastBit)
    {
      i := i - 1;
      var bit := Bit(data[j], i);
      ScanBit(data, j, i, first, maxRun, currentRun, lastBit);
      if bit == lastBit {
        currentRun := currentRun + 1;
        maxRun := Max(maxRun, currentRun);
      } else {
        currentRun := 1;
        lastBit := bit;
      }
    }
  }

  // ---------------------------------------------------------------------
  // The report and the score
  // ---------------------------------------------------------------------

  /// The report on a sample: every field is the standalone metric of the
  /// same bytes, and the dictionary is that of the sample.
  function MetricsOf(data: seq<byte>, nx: Numerics): QualityMetrics
  {
    QualityMetrics(
      Shannon(data, nx),
      MinEntropyOf(data, nx),
      ByteCounts(data),
      |data|,
      ChiSquareOf(data),
      Mean(data),
      ReportedLongestRun(MsbBits(data)))
  }

  /// `analyze`: one fill of `sample_size` bytes from the source, then every
  /// metric on that buffer.
  method Analyze(source: Source, sampleSize: nat, nx: Numerics) returns (report: QualityMetrics)
    modifies source.Target()
    ensures report == MetricsOf(LcgStream(old(source.Target().state), sampleSize), nx)
    ensures source.Target().state == LcgAdvance(old(source.Target().state), sampleSize)
  {
    ghost var start := source.Target().state;
    var buf := new byte[sampleSize];
    source.FillBytes(buf);
    var data := buf[..];
    assert data == LcgStream(start, sampleSize);
    var shannon := ShannonEntropy(data, nx);
    var minEnt := MinEntropy(data, nx);
    var chiSq := ChiSquare(data);
    var meanVal := Mean(data);
    var longest := LongestRun(data);
    var freq := FrequencyMap(data);
    report := QualityMetrics(shannon, minEnt, freq, sampleSize, chiSq, meanVal, longest);
  }

  /// The report of any sample has a mean in `0..255`, a non-negative
  /// chi-square statistic, one dictionary entry per byte value present with
  /// counts summing to the sample size, and the longest-run value of the
  /// quirk.
  lemma MetricsOfSample(data: seq<byte>, nx: Numerics)
    ensures 0.0 <= MetricsOf(data, nx).mean <= 255.0
    ensures MetricsOf(data, nx).chiSquare >= 0.0
    ensures MetricsOf(data, nx).totalBytes == |data|
    ensures Total(AsTable(MetricsOf(data, nx).byteFrequency)) == |data|
    ensures data != [] ==> 2 <= MetricsOf(data, nx).longestRun <= 8 * |data| + 1
  {
    ByteCountsTable(data);
    if data != [] {
      ByteChiSquareNonNegative(data);
      ReportedLongestRunQuirk(MsbBits(data));
    }
  }

  /// `overall_score`: half Shannon entropy, three tenths min-entropy and
  /// one fifth closeness of the mean to 127.5, each on a 0-100 scale.
  function OverallScore(m: QualityMetrics): real
  {
    var shannonScore := (m.shannonEntropy / 8.0) * 100.0;
    var minEntropyScore := (m.minEntropy / 8.0) * 100.0;
    var meanDiff := Abs(m.mean - 127.5);
    var meanScore := ((127.5 - meanDiff) / 127.5) * 100.0;
    shannonScore * 0.5 + minEntropyScore * 0.3 + meanScore * 0.2
  }

  /// With both entropies in `0..8` and the mean in `0..255`, the score lies
  /// in `0..100`; it is 100 exactly for entropies of 8 and a mean of 127.5.
  lemma OverallScoreBounds(m: QualityMetrics)
    requires 0.0 <= m.shannonEntropy <= 8.0 && 0.0 <= m.minEntropy <= 8.0
    requires 0.0 <= m.mean <= 255.0
    ensures 0.0 <= OverallScore(m) <= 100.0
    ensures OverallScore(m) == 100.0 <==> m.shannonEntropy == 8.0 && m.minEntropy == 8.0 && m.mean == 127.5
  {
  }
}
