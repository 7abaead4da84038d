/// Frequency tables and Pearson's chi-square statistic, shared by the test
/// battery and the descriptive metrics.
///
/// Both build a table of counts by incrementing one bucket per observed value
/// (`freq[byte as usize] += 1`) and then accumulate
/// `(count - expected)^2 / expected` over the buckets in index order.
module Statistics {
  import opened Bytes

  /// A table of `k` buckets: bucket `c` holds the number of occurrences of `c` in `s`.
  function Tally(s: seq<int>, k: nat): (t: seq<nat>)
    ensures |t| == k
  {
    seq(k, c requires 0 <= c < k => Count(s, c))
  }

  /// The sum of the counts of a table.
  function Total(t: seq<nat>): nat
  {
    if t == [] then 0 else Total(t[..|t| - 1]) + t[|t| - 1]
  }

  lemma CountSnoc(s: seq<int>, x: int, v: int)
    ensures Count(s + [x], v) == Count(s, v) + (if x == v then 1 else 0)
  {
    assert (s + [x])[..|s|] == s;
  }

  lemma {:induction false} TotalIsCountsBelow(s: seq<int>, k: nat)
    ensures Total(Tally(s, k)) == CountsBelow(s, k)
  {
    if k > 0 {
      assert Tally(s, k)[..k - 1] == Tally(s, k - 1);
      TotalIsCountsBelow(s, k - 1);
    }
  }

  /// When every value falls in one of the `k` buckets, the counts add up to
  /// the number of values.
  lemma TallyTotal(s: seq<int>, k: nat)
    requires forall i :: 0 <= i < |s| ==> 0 <= s[i] < k
    ensures Total(Tally(s, k)) == |s|
  {
    TotalIsCountsBelow(s, k);
    CountsBelowTotal(s, k);
  }

  /// The counting loop: a zeroed table of `k` buckets, incremented once per
  /// value, in order.
  method Histogram(values: seq<int>, k: nat) returns (table: seq<nat>)
    requires forall i :: 0 <= i < |values| ==> 0 <= values[i] < k
    ensures table == Tally(values, k)
  {
    var freq := new nat[k](_ => 0);
    var i := 0;
    while i < |values|
      invariant 0 <= i <= |values|
      invariant forall c :: 0 <= c < k ==> freq[c] == Count(values[..i], c)
    {
      assert values[..i + 1] == values[..i] + [values[i]];
      forall c | 0 <= c < k
        ensures Count(values[..i + 1], c) == Count(values[..i], c) + (if values[i] == c then 1 else 0)
      {
        CountSnoc(values[..i], values[i], c);
      }
      freq[values[i]] := freq[values[i]] + 1;
      i := i + 1;
    }
    assert values[..i] == values;
    table := freq[..];
  }

  /// The byte-value table `freq[byte as usize] += 1` builds: 256 buckets,
  /// bucket `v` holding the occurrences of byte `v`.
  method ByteHistogram(data: seq<byte>) returns (table: seq<nat>)
    ensures |table| == 256
    ensures forall v :: 0 <= v < 256 ==> table[v] == Occurrences(data, v)
    ensures table == Tally(Values(data), 256)
  {
    table := Histogram(Values(data), 256);
  }

  /// The 256 byte counts of a sample add up to its length.
  lemma ByteHistogramTotal(data: seq<byte>)
    ensures Total(Tally(Values(data), 256)) == |data|
  {
    TallyTotal(Values(data), 256);
  }

  predicate AllPositive(e: seq<real>)
  {
    forall i :: 0 <= i < |e| ==> e[i] > 0.0
  }

  /// `k` buckets each expecting `e`.
  function Uniform(e: real, k: nat): (r: seq<real>)
    ensures |r| == k
    ensures e > 0.0 ==> AllPositive(r)
  {
    seq(k, _ => e)
  }

  /// Pearson's statistic: `(observed[i] - expected[i])^2 / expected[i]`
  /// summed in bucket order.
  function Pearson(observed: seq<nat>, expected: seq<real>): real
    requires |observed| == |expected| && AllPositive(expected)
  {
    if observed == [] then 0.0
    else
      var k := |observed| - 1;
      var diff := observed[k] as real - expected[k];
      Pearson(observed[..k], expected[..k]) + diff * diff / expected[k]
  }

  /// The accumulation loop `chi_sq += diff * diff / expected`.
  method PearsonStatistic(observed: seq<nat>, expected: seq<real>) returns (chi: real)
    requires |observed| == |expected| && AllPositive(expected)
    ensures chi == Pearson(observed, expected)
  {
    chi := 0.0;
    var i := 0;
    while i < |observed|
      invariant 0 <= i <= |observed|
      invariant chi == Pearson(observed[..i], expected[..i])
    {
      var diff := observed[i] as real - expected[i];
      assert observed[..i + 1][..i] == observed[..i];
      assert expected[..i + 1][..i] == expected[..i];
      chi := chi + diff * diff / expected[i];
      i := i + 1;
    }
    assert observed[..i] == observed && expected[..i] == expected;
  }

  lemma SquareOverPositive(d: real, e: real)
    requires e > 0.0
    ensures d * d / e >= 0.0
  {
    assert d * d >= 0.0;
  }

  /// Every term is a square over a positive expectation, so the statistic is
  /// never negative.
  lemma {:induction false} PearsonNonNegative(observed: seq<nat>, expected: seq<real>)
    requires |observed| == |expected| && AllPositive(expected)
    ensures Pearson(observed, expected) >= 0.0
  {
    if observed != [] {
      var k := |observed| - 1;
      PearsonNonNegative(observed[..k], expected[..k]);
      SquareOverPositive(observed[k] as real - expected[k], expected[k]);
    }
  }

  /// A table that meets its expectation exactly in every bucket scores 0.
  lemma {:induction false} PearsonZero(observed: seq<nat>, expected: seq<real>)
    requires |observed| == |expected| && AllPositive(expected)
    requires forall i :: 0 <= i < |observed| ==> observed[i] as real == expected[i]
    ensures Pearson(observed, expected) == 0.0
  {
    if observed != [] {
      var k := |observed| - 1;
      PearsonZero(observed[..k], expected[..k]);
    }
  }

  /// Pearson's statistic of the 256 byte counts of a non-empty sample
  /// against the uniform expectation `N / 256` in every bucket.
  function ByteChiSquare(data: seq<byte>): real
    requires data != []
  {
    Pearson(Tally(Values(data), 256), Uniform(|data| as real / 256.0, 256))
  }

  lemma ByteChiSquareNonNegative(data: seq<byte>)
    requires data != []
    ensures ByteChiSquare(data) >= 0.0
  {
    PearsonNonNegative(Tally(Values(data), 256), Uniform(|data| as real / 256.0, 256));
  }

  /// The 256 byte values in increasing order, each once.
  function AllBytes(): (r: seq<byte>)
    ensures |r| == 256
  {
    seq(256, i requires 0 <= i < 256 => ToByte(i))
  }

  /// `0, 1, ..., k - 1`.
  function Naturals(k: nat): (r: seq<int>)
    ensures |r| == k
  {
    seq(k, i requires 0 <= i < k => i)
  }

  lemma {:induction false} CountNaturals(k: nat, v: int)
    ensures Count(Naturals(k), v) == if 0 <= v < k then 1 else 0
  {
    if k > 0 {
      assert Naturals(k)[..k - 1] == Naturals(k - 1);
      CountNaturals(k - 1, v);
    }
  }

  lemma ValuesOfAllBytes()
    ensures Values(AllBytes()) == Naturals(256)
  {
    forall i | 0 <= i < 256
      ensures Values(AllBytes())[i] == i
    {
      assert AllBytes()[i] == ToByte(i);
    }
  }

  /// A sample holding every byte value exactly once is perfectly uniform:
  /// its statistic is 0.
  lemma ByteChiSquareOfAllBytes()
    ensures ByteChiSquare(AllBytes()) == 0.0
  {
    var data := AllBytes();
    ValuesOfAllBytes();
    var observed := Tally(Naturals(256), 256);
    var expected := Uniform(1.0, 256);
    forall v | 0 <= v < 256
      ensures observed[v] as real == expected[v]
    {
      CountNaturals(256, v);
    }
    PearsonZero(observed, expected);
  }

  /// A byte value as a dictionary key.
  newtype ByteValue = x: int | 0 <= x < 256

  /// The number of occurrences of the byte value `v`.
  function CountOf(data: seq<byte>, v: ByteValue): nat
  {
    Occurrences(data, v as int)
  }

  /// The byte-frequency dictionary `*freq.entry(byte).or_insert(0) += 1`
  /// builds: a key for every byte value that occurs, mapped to its count.
  function ByteCounts(data: seq<byte>): map<ByteValue, nat>
  {
    map v: ByteValue | CountOf(data, v) > 0 :: CountOf(data, v)
  }

  /// A byte value occurs in a sample exactly when its count is positive.
  lemma OccursIffPositive(data: seq<byte>, b: byte)
    ensures b in data <==> Occurrences(data, b as int) > 0
  {
    CountPositive(Values(data), b as int);
    if b in data {
      var i :| 0 <= i < |data| && data[i] == b;
      assert Values(data)[i] == b as int;
    }
    if b as int in Values(data) {
      var i :| 0 <= i < |data| && Values(data)[i] == b as int;
      assert data[i] == b;
    }
  }

  /// The dictionary has a key for exactly the byte values that occur in
  /// the sample, and each key maps to its number of occurrences.
  lemma ByteCountsKeys(data: seq<byte>, b: byte)
    ensures b as int as ByteValue in ByteCounts(data) <==> b in data
    ensures b in data ==> ByteCounts(data)[b as int as ByteValue] == Occurrences(data, b as int)
  {
    OccursIffPositive(data, b);
  }

  lemma OccurrencesSnoc(data: seq<byte>, b: byte, v: int)
    ensures Occurrences(data + [b], v) == Occurrences(data, v) + (if b as int == v then 1 else 0)
  {
    assert Values(data + [b]) == Values(data) + [b as int];
    CountSnoc(Values(data), b as int, v);
  }

  /// `*freq.entry(b).or_insert(0) += 1`.
  function Increment(m: map<ByteValue, nat>, b: byte): map<ByteValue, nat>
  {
    var key := b as int as ByteValue;
    var count: nat := if key in m then m[key] else 0;
    m[key := count + 1]
  }

  /// One more byte: its entry is created at 1 or incremented.
  lemma ByteCountsSnoc(data: seq<byte>, b: byte)
    ensures ByteCounts(data + [b]) == Increment(ByteCounts(data), b)
  {
    var m' := ByteCounts(data + [b]);
    var expected := Increment(ByteCounts(data), b);
    forall v: ByteValue
      ensures (v in m' <==> v in expected) && (v in m' ==> m'[v] == expected[v])
    {
      assert CountOf(data + [b], v) == Occurrences(data + [b], v as int);
      OccurrencesSnoc(data, b, v as int);
    }
    assert m'.Keys == expected.Keys;
  }

  /// The dictionary-building loop.
  method FrequencyMap(data: seq<byte>) returns (freq: map<ByteValue, nat>)
    ensures freq == ByteCounts(data)
  {
    freq := map[];
    var i := 0;
    while i < |data|
      invariant 0 <= i <= |data|
      invariant freq == ByteCounts(data[..i])
    {
      assert data[..i + 1] == data[..i] + [data[i]];
      ByteCountsSnoc(data[..i], data[i]);
      freq := Increment(freq, data[i]);
      i := i + 1;
    }
    assert data[..i] == data;
  }

  /// The dictionary read as 256 buckets, absent keys counting 0.
  function AsTable(m: map<ByteValue, nat>): (t: seq<nat>)
    ensures |t| == 256
  {
    seq(256, v requires 0 <= v < 256 => if v as ByteValue in m then m[v as ByteValue] else 0)
  }

  /// The dictionary and the 256-bucket table agree, so its values add up
  /// to the length of the sample.
  lemma ByteCountsTable(data: seq<byte>)
    ensures AsTable(ByteCounts(data)) == Tally(Values(data), 256)
    ensures Total(AsTable(ByteCounts(data))) == |data|
  {
    ByteHistogramTotal(data);
  }
}
