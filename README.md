# entropy-forge, modelled in Dafny

entropy-forge is a toolkit for producing and judging random bytes. This
project models its core:

- **Quality checks.**
  - A battery of statistical tests. These are simplified forms of the
    Frequency (monobit), Runs and Longest-Run-of-Ones tests of NIST SP
    800-22 Rev. 1a (sections 2.1, 2.3 and 2.4). There is also a byte-level
    chi-square test and a serial test over overlapping two-bit patterns.
  - Descriptive quality metrics: Shannon entropy, min-entropy, the
    uniformity chi-square statistic, the mean byte value, the longest run
    of identical bits, the report `analyze` assembles, and the combined
    score.
- **The entropy-source contract.** This covers its default methods, the
  forwarding implementations for boxed and borrowed sources, and the
  deterministic linear-congruential mock source.
- **The XOR stream cipher**, including its avalanche measurement.
- **The three step-by-step learning views.** An XOR encryption
  walk-through (with the per-character `EncryptionStep` and its eight bit
  operations), a walk-through of the frequency test, and a walk-through
  of the Shannon entropy computation.

Every test, metric and view first computes exact integer bookkeeping:

- bit expansions;
- the monobit sum and the runs count;
- block categories and frequency tables;
- guards and step lists.

Only then does it call a floating-point special function (`sqrt`, the
exponential inside the `erfc` approximation, `log2`, the chi-square CDF).
The model states that bookkeeping exactly.

The special functions are parameters, bundled in
`SpecialFunctions.Numerics`. `SpecialFunctions.PValue` records which exact
statistic a test hands to them, and `Evaluate` is the float expression the
code builds around them. Integers are unbounded except where the code
relies on wrap-around: the generator's `wrapping_mul`/`wrapping_add`
modulo 2^64, the `u8` truncation `c as u8`, and the `u32`/`u64` results of
`next_u32`/`next_u64`.

Stateful entities are classes:

- `MockEntropy` (`state`, and a constant `initialState`);
- `StreamCipher` (`state`, `bytesProcessed`);
- the three learning processes (`steps`, `currentStepIndex`, `isPlaying`,
  and the input).

The `EntropySource` trait becomes the datatype `Entropy.Source`, with three
cases:

- the mock itself;
- a `Box<dyn EntropySource>` around a source;
- a `&mut` borrow of one.

Every source is a forwarding chain that ends in one mock object.
The counting loops of the code are methods proved against specification
functions (`FrequencyTest` computes `MonobitSum`, `LongestRun` computes
`ReportedLongestRun`, `Start` computes `StepsOf`/`NistStepsOf`/
`EntropyStepsOf`), and the properties the code promises are lemmas about
those functions.

Where the comments and the code disagree, the model follows the code:

- **Longest-run regime switch.** The longest-run test switches to its
  largest regime at 75000 bits (`src/quality/nist.rs:121`). Table 2-4 of
  NIST SP 800-22 gives 750,000.
- **Cipher `state` keeps the first bytes.** The cipher keeps the **first**
  `min(64, len)` keystream bytes (`src/crypto/cipher.rs:65-68`). Its
  comment speaks of the last ones.
- **`longest_run` counts the first run one longer.** In the metrics,
  `longest_run` compares the first bit with itself, so the first run is
  counted one longer (`src/quality/metrics.rs:133-141`). The model keeps
  this as written. `Metrics.ReportedLongestRunQuirk` relates it to the true
  longest run.
- **Bit order.** The learning frequency view expands bits most-significant
  first, while the test battery expands them least-significant first.
  `NistVisual.NistSumIsMonobitSum` shows that the sums nevertheless agree.
- **XOR view indexes the keystream by character.** The XOR learning view
  draws one keystream byte per UTF-8 byte but indexes the keystream by
  character, and it truncates each character's code point to a byte
  (`src/learn/xor_visual.rs:40-45`, `src/learn/steps.rs:22`).
  `XorVisual.NonAsciiExample` shows the effect on "é".
- **`generate_random` range.** `generate_random` maps a byte to
  `33 + b % 93`, so the characters lie in 33..125. Its comment says 33..126.

## Model

| member | source | states |
|---|---|---|
| Bytes.BitExpansions | src/quality/nist.rs:69-71 | both bit expansions have 8 entries per byte, each 0 or 1; the least-significant-first expansion holds bit `i` of byte `j` at `8j+i`, the most-significant-first one holds bit `7-i` there |
| Bytes.OnesInExpansions | src/learn/nist_visual.rs:64-69 | the number of ones in either expansion is the total popcount of the bytes |
| Bytes.OccurrencesTotal | src/quality/nist.rs:183-186 | the 256 per-value occurrence counts of a sample add up to its length |
| Bytes.SumBounds | src/quality/metrics.rs:122 | the byte sum lies between 0 and 255 per byte |
| Bytes.XorBytesInvolution | src/crypto/cipher.rs:71-74 | XOR with the same key twice gives the data back |
| Bytes.HammingDistanceBound | src/crypto/cipher.rs:127-133 | two strings of `n` bytes differ in at most `8n` bits |
| Text.Utf8Length | src/learn/xor_visual.rs:40-44 | a text has at most as many characters as UTF-8 bytes, and at most four bytes per character; only the empty text has no bytes |
| Text.Utf8OfAscii | src/learn/nist_visual.rs:58 | an ASCII text's bytes are its characters, one each |
| SpecialFunctions.ErfcReflection | src/quality/nist.rs:261-279 | the approximation satisfies `erfc(-x) = 2 - erfc(x)` for every nonzero `x`, whatever the exponential |
| SpecialFunctions.ErfcAtZero | src/quality/nist.rs:261-279 | at 0 the approximation gives `exp(0.00000003)`, not exactly 1 |
| SpecialFunctions.RunsDenominatorZero | src/quality/nist.rs:93-97 | the runs denominator is never negative and vanishes exactly when the bits are all zeros or all ones |
| SpecialFunctions.GuardNeverPasses | src/quality/nist.rs:5-9 | a guard's 0.0 never reaches the 0.01 significance level |
| Statistics.Histogram | src/quality/nist.rs:224-228 | the counting loop leaves in bucket `c` the number of occurrences of `c` |
| Statistics.TallyTotal | src/quality/nist.rs:155 | when every value has a bucket, the bucket counts add up to the number of values |
| Statistics.ByteHistogram | src/quality/nist.rs:183-186 | the 256-bucket table holds in bucket `v` the occurrences of byte `v` |
| Statistics.ByteHistogramTotal | src/quality/metrics.rs:99-102 | the 256 byte counts add up to the sample length |
| Statistics.PearsonStatistic | src/quality/metrics.rs:107-111 | the accumulation loop computes Pearson's statistic over the buckets in order |
| Statistics.PearsonNonNegative | src/quality/nist.rs:191-195 | Pearson's statistic is never negative |
| Statistics.PearsonZero | src/quality/metrics.rs:107-111 | a table meeting its expectation exactly scores 0 |
| Statistics.ByteChiSquareNonNegative | src/quality/metrics.rs:104-113 | the uniformity statistic of a non-empty sample is at least 0 |
| Statistics.ByteChiSquareOfAllBytes | src/quality/metrics.rs:104-113 | the sample holding each byte value once has statistic 0 |
| Statistics.OccursIffPositive | src/quality/metrics.rs:46-49 | a byte occurs in the sample exactly when its count is positive |
| Statistics.ByteCountsKeys | src/quality/metrics.rs:46-49 | the dictionary has a key for exactly the byte values that occur, mapped to their number of occurrences |
| Statistics.ByteCountsSnoc | src/quality/metrics.rs:48 | one more byte creates its entry at 1 or increments it, and changes nothing else |
| Statistics.FrequencyMap | src/learn/entropy_visual.rs:65-68 | the dictionary-building loop yields the byte-count dictionary of the sample |
| Statistics.ByteCountsTable | src/quality/metrics.rs:183-186 | the dictionary read as 256 buckets is the byte histogram, so its counts add up to the sample length |
| Nist.FrequencyTest | src/quality/nist.rs:26-49 | 0.0 on empty input; otherwise the p-value of the monobit sum over the `8N` bits, which the nested loop is proved to compute |
| Nist.MonobitSumIsOnesMinusZeros | src/quality/nist.rs:31-42 | the monobit sum is ones minus zeros, so its magnitude is at most `8N` |
| Nist.MonobitSumAllOnes | src/quality/nist.rs:297-302 | 1000 bytes 0xFF give the sum 8000 |
| Nist.MonobitSumAlternating | src/quality/nist.rs:289-294 | 1000 bytes 0xAA give the sum 0 |
| Nist.RunsTest | src/quality/nist.rs:63-100 | 0.0 on empty input, on a failed pre-test and on a zero denominator; otherwise the runs p-value with `1 + transitions` runs |
| Nist.CountRuns | src/quality/nist.rs:84-89 | the loop counts one run plus one per change of bit |
| Nist.RunsBounds | src/quality/nist.rs:84-89 | a non-empty bit string has between 1 and `n` runs |
| Nist.TransitionsZero | src/quality/nist.rs:84-89 | there is a single run exactly when all bits equal the first |
| Nist.RunsDenominatorGuardNeedsOneByte | src/quality/nist.rs:78-97 | with two or more bytes an all-zero or all-one sample already fails the pre-test, so the denominator guard only matters for one byte |
| Nist.RegimeFor | src/quality/nist.rs:119-126 | the three regimes (block 8, 128 or 10000; cut-offs; probabilities) by bit count, switching at 6272 and 75000, with degrees of freedom one less than the categories |
| Nist.LongestOnesIsLongest | src/quality/nist.rs:138-148 | the specification of a block's longest run of ones: no stretch of ones is longer, and one has that length |
| Nist.LongestRunInBlock | src/quality/nist.rs:138-148 | the per-block scan computes the longest run of ones |
| Nist.FirstCovering | src/quality/nist.rs:151-152 | `position` finds the first cut-off at least the run, or none |
| Nist.Category | src/quality/nist.rs:151-153 | a block's category is the first cut-off covering its run, or the last category when none does |
| Nist.BlockCategories | src/quality/nist.rs:129-135 | one category per complete block, each in range; leftover bits are ignored |
| Nist.Expected | src/quality/nist.rs:161 | the expected tallies are all positive, one per category |
| Nist.TallySnoc | src/quality/nist.rs:155 | tallying one more block raises its category's count by one and no other |
| Nist.TallyBlocks | src/quality/nist.rs:129-156 | the block loop builds the tally of the block categories |
| Nist.CategoryTalliesTotal | src/quality/nist.rs:129-156 | the category counts add up to the number of complete blocks `n / M` |
| Nist.LongestRunTest | src/quality/nist.rs:106-173 | 0.0 below 128 bytes whatever the content; otherwise the chi-square tail of the category tallies with `K` degrees of freedom |
| Nist.ChiSquareTest | src/quality/nist.rs:178-203 | 0.0 on empty input; otherwise the tail, with 255 degrees of freedom, of the 256-bucket statistic against `N / 256` |
| Nist.BitExpansionIsBitString | src/quality/nist.rs:214-216 | the expansion consists of bits |
| Nist.PatternsInRange | src/quality/nist.rs:224-228 | every overlapping pattern `(b_i << 1) \| b_{i+1}` lies in 0..3 |
| Nist.PatternTalliesTotal | src/quality/nist.rs:224-228 | the four pattern counts add up to `n - 1` |
| Nist.SerialTest | src/quality/nist.rs:208-245 | 0.0 below two bytes; otherwise the tail, with 3 degrees of freedom, of the pattern statistic against `(n - 1) / 4` |
| Nist.RunAllTests | src/quality/nist.rs:250-258 | exactly five pairs, in a fixed order and under fixed names, each the corresponding test on the same data |
| Metrics.ShannonEntropy | src/quality/metrics.rs:41-62 | 0.0 on empty input; otherwise the sum of `-p log2 p` over the byte values present |
| Metrics.EntropySumStep | src/quality/metrics.rs:54-59 | each further bucket subtracts its `p log2 p` |
| Metrics.EntropySumOfOneValue | src/quality/metrics.rs:54-59 | buckets that are empty or hold the whole sample contribute nothing, given `log2 1 = 0` |
| Metrics.ShannonOfConstant | src/quality/metrics.rs:233-238 | a sample of one repeated byte has entropy 0 |
| Metrics.EntropySumOfOnes | src/quality/metrics.rs:54-59 | buckets of one byte out of 256 contribute 1/32 bit each, given `log2(1/256) = -8` |
| Metrics.ShannonOfAllBytes | src/quality/metrics.rs:225-230 | each byte value once gives exactly 8 bits per byte, given `log2(1/256) = -8` |
| Metrics.MaxOf | src/quality/metrics.rs:80 | the maximum bounds every entry, is one of them, and is 0 for no entries |
| Metrics.MinEntropy | src/quality/metrics.rs:70-88 | 0.0 on empty input; otherwise `-log2(max count / N)` |
| Metrics.MaxCountIsMostFrequent | src/quality/metrics.rs:80-87 | for a non-empty sample the maximum count lies in `1..N`, is some byte's count, and no byte occurs more often |
| Metrics.MaxCountExample | src/quality/metrics.rs:241-247 | in `[1,2,3,4,5,1,1,1]` the most frequent byte occurs 4 times |
| Metrics.MinEntropyExample | src/quality/metrics.rs:241-247 | that sample has min-entropy 1 bit, given `log2(1/2) = -1` |
| Metrics.ChiSquare | src/quality/metrics.rs:94-114 | 0.0 on empty input; otherwise the uniformity statistic of the byte counts; never negative |
| Metrics.Mean | src/quality/metrics.rs:117-124 | the mean lies between 0 and 255 |
| Metrics.MeanExample | src/quality/metrics.rs:250-254 | `[0, 128, 255]` has mean 383/3 |
| Metrics.LongestSameIsLongest | src/quality/metrics.rs:126-127 | the specification of the longest run of identical bits: no stretch of equal bits is longer, and one has that length |
| Metrics.LeadingSameIsFirstRun | src/quality/metrics.rs:133-134 | the first run: the bits before its end equal the first bit, the next one differs |
| Metrics.ReportedLongestRunQuirk | src/quality/metrics.rs:132-149 | the reported value is the true longest run or one more, one more exactly when the first run is a longest run, and between 2 and `n + 1` |
| Metrics.ReportedLongestRunExample | src/quality/metrics.rs:132-149 | for the byte 0x0F the longest run is 4 and the reported value is 5 |
| Metrics.ScanStep | src/quality/metrics.rs:138-145 | one bit of the scan extends the current run and may raise the maximum, or starts a new run of 1 |
| Metrics.ScanByte | src/quality/metrics.rs:137-146 | the inner loop over a byte's bits, most significant first, keeps the scan's state |
| Metrics.LongestRun | src/quality/metrics.rs:127-150 | 0 on empty input; otherwise the value of the continuous most-significant-first scan, which is `ReportedLongestRun` |
| Metrics.Analyze | src/quality/metrics.rs:173-197 | one fill of exactly `sample_size` bytes advances the source by that much, and every field is the standalone metric of that same buffer |
| Metrics.MetricsOfSample | src/quality/metrics.rs:188-196 | a report's mean lies in 0..255, its chi-square is non-negative, its total is the sample size, its dictionary sums to the sample size, and its longest run lies in `2..8N+1` |
| Metrics.OverallScoreBounds | src/quality/metrics.rs:203-216 | with entropies in 0..8 and the mean in 0..255 the score lies in 0..100, and is 100 exactly for entropies 8 and mean 127.5 |
| Entropy.LcgStepIsAffine | src/entropy/mock.rs:43 | the wrapping multiply and the wrapping add are one affine map modulo 2^64 |
| Entropy.LcgConcatenation | src/entropy/mock.rs:49-53 | drawing `n` and then `m` bytes gives the bytes and final state of drawing `n + m` |
| Entropy.MockEntropy.constructor | src/entropy/mock.rs:28-33 | `new(seed)` sets both the state and the initial state to the seed |
| Entropy.MockEntropy.Default | src/entropy/mock.rs:36-38 | the default seed is 42 |
| Entropy.MockEntropy.Next | src/entropy/mock.rs:42-45 | one wrapping LCG step, returning bits 24..31 of the new state |
| Entropy.MockEntropy.FillBytes | src/entropy/mock.rs:49-53 | every position of the buffer, in index order, receives the next output; the state advances by the buffer length |
| Entropy.MockEntropy.Reset | src/entropy/mock.rs:59-61 | the state returns to the seed |
| Entropy.Source.Name | src/entropy/mod.rs:100-119 | every forwarder reports the name of the mock it ends in |
| Entropy.Source.FillBytes | src/entropy/mod.rs:100-119 | the forwarders pass the buffer to their inner source, so it is filled with the mock's next bytes |
| Entropy.Source.Reset | src/entropy/mod.rs:94-96 | reset restores the seed only on the mock itself; through a forwarder it is the default no-op |
| Entropy.Source.NextByte | src/entropy/mod.rs:56-60 | the byte one fill of a one-byte buffer writes |
| Entropy.Source.NextU32 | src/entropy/mod.rs:66-70 | the next four bytes read little-endian, advancing the source by four |
| Entropy.Source.NextU64 | src/entropy/mod.rs:76-80 | the next eight bytes read little-endian, advancing the source by eight |
| Entropy.LittleEndianFour | src/entropy/mod.rs:66-70 | four bytes read as `b0 + 2^8 b1 + 2^16 b2 + 2^24 b3` |
| Entropy.LittleEndianOfToLittleEndian | src/entropy/mod.rs:76-80 | reading back the written little-endian bytes gives the integer |
| Entropy.ToLittleEndianOfLittleEndian | src/entropy/mod.rs:76-80 | writing out the read integer gives the bytes |
| Entropy.SameSeedSameBytes | src/entropy/mock.rs:68-81 | two mocks with the same seed fill equal buffers |
| Entropy.DifferentSeedsDifferentBytes | src/entropy/mock.rs:83-96 | seeds 42 and 43 differ already in their first byte (202 and 12) |
| Entropy.FillResetFill | src/entropy/mock.rs:98-111 | fill, reset, fill yields the same buffer twice |
| Entropy.SplitFill | src/entropy/mock.rs:49-53 | two fills of `n` and `m` bytes produce the bytes of one fill of `n + m` |
| Cipher.FlipBitChangesOneBit | src/crypto/cipher.rs:115-121 | the modified copy differs only in bit `bit_to_flip % 8` of byte `bit_to_flip / 8`, when that byte exists |
| Cipher.FlipBitDistance | src/crypto/cipher.rs:115-121 | the copy is one bit away from the data when the byte exists, otherwise equal |
| Cipher.StreamCipher.constructor | src/crypto/cipher.rs:40-46 | nothing processed and no keystream kept |
| Cipher.StreamCipher.State | src/crypto/cipher.rs:84-86 | the kept keystream bytes |
| Cipher.StreamCipher.BytesProcessed | src/crypto/cipher.rs:89-91 | the byte counter |
| Cipher.StreamCipher.Process | src/crypto/cipher.rs:59-78 | same length; output is input XOR the next `len` keystream bytes from one fill; the first `min(64, len)` of them are kept; the counter grows by `len` |
| Cipher.StreamCipher.Reset | src/crypto/cipher.rs:94-98 | keystream forgotten, counter 0, source reset |
| Cipher.StreamCipher.AvalancheEffect | src/crypto/cipher.rs:106-136 | 0.0 and nothing changed on empty data; otherwise the percentage of differing output bits between the data and its one-bit-flipped copy under consecutive keystreams, the source advanced and the counter raised by `2 len` |
| Cipher.AvalancheBounds | src/crypto/cipher.rs:135 | the reported share lies in 0..100 |
| Cipher.CountDifferentBits | src/crypto/cipher.rs:127-133 | the counting loop computes the Hamming distance of the outputs |
| Cipher.EncryptResetDecrypt | src/crypto/cipher.rs:158-171 | encrypt, reset, process the ciphertext: the plaintext comes back |
| Cipher.SameSeedSameCiphertext | src/crypto/cipher.rs:158-171 | two ciphers over mocks with the same seed give the same ciphertext |
| Cipher.ProcessTwice | src/crypto/cipher.rs:186-195 | two calls add their lengths to the counter and use consecutive pieces of one keystream |
| Steps.CharToByte | src/learn/steps.rs:22 | `c as u8` keeps the code point modulo 256 |
| Steps.MaskSetIsBit | src/learn/steps.rs:29-32 | masking with `1 << i` tests bit `i` |
| Steps.NewEncryptionStep | src/learn/steps.rs:21-49 | the loop over positions 7 down to 0 builds the step `EncryptionStepOf` describes |
| Steps.EncryptionStepFacts | src/learn/steps.rs:21-49 | the character is kept, the input byte is its code point modulo 256, the result is input XOR key, and the eight operations are positions 7..0, each bit that bit of its byte, the result bit the XOR of the others |
| Steps.BitOperationsFaithful | src/learn/steps.rs:28-40 | every bit operation is at position `7 - j` and faithful to the three bytes |
| Steps.BinaryRoundTrip | src/learn/steps.rs:52-64 | the eight-digit binary form, read back, gives the byte |
| Steps.EncryptionStep.InputBinary | src/learn/steps.rs:52-54 | eight binary digits whose value is the input byte |
| Steps.EncryptionStep.KeystreamBinary | src/learn/steps.rs:57-59 | eight binary digits whose value is the keystream byte |
| Steps.EncryptionStep.ResultBinary | src/learn/steps.rs:62-64 | eight binary digits whose value is the result byte |
| Navigation.Initial | src/learn/xor_visual.rs:36-37 | first step, paused, within bounds for any number of steps |
| Navigation.Next | src/learn/xor_visual.rs:58-64 | advances exactly when a following step exists, otherwise stays and stops playing; keeps the bounds invariant |
| Navigation.Prev | src/learn/xor_visual.rs:66-70 | steps back but not below 0, playing untouched; keeps the bounds invariant |
| Navigation.Toggle | src/learn/xor_visual.rs:72-74 | flips playing, index untouched |
| Navigation.ToggleTwice | src/learn/nist_visual.rs:188-190 | toggling twice restores the state |
| Navigation.Current | src/learn/xor_visual.rs:50-56 | no step exactly when there are none, otherwise the step under the cursor |
| Navigation.AdvanceClamps | src/learn/entropy_visual.rs:155-161 | `k` presses of next land on `min(i + k, last)` and keep playing only if the last step was not passed |
| Navigation.RewindClamps | src/learn/entropy_visual.rs:163-167 | `k` presses of previous land on `max(i - k, 0)` |
| Navigation.PrevUndoesNext | src/learn/nist_visual.rs:174-186 | previous undoes a next that moved |
| Navigation.NextUndoesPrev | src/learn/nist_visual.rs:174-186 | next undoes a previous that moved |
| XorVisual.StepsOf | src/learn/xor_visual.rs:43-47 | one step per character |
| XorVisual.EncryptionProcess.constructor | src/learn/xor_visual.rs:14-25 | empty, first step, paused |
| XorVisual.EncryptionProcess.Start | src/learn/xor_visual.rs:33-48 | resets the view and records one step per character with the keystream drawn for the text's byte length, which always covers the characters |
| XorVisual.EncryptionProcess.CurrentStep | src/learn/xor_visual.rs:50-56 | none exactly when there are no steps, otherwise the step at the index |
| XorVisual.EncryptionProcess.NextStep | src/learn/xor_visual.rs:58-64 | the cursor moves as `Next`, steps unchanged, bounds kept |
| XorVisual.EncryptionProcess.PrevStep | src/learn/xor_visual.rs:66-70 | the cursor moves as `Prev`, steps unchanged, bounds kept |
| XorVisual.EncryptionProcess.TogglePlay | src/learn/xor_visual.rs:72-74 | only playing flips |
| XorVisual.StepsOfFacts | src/learn/xor_visual.rs:43-45 | step `i` shows character `i`, its code point modulo 256, keystream byte `i`, and a result from which XOR with that byte recovers the input |
| XorVisual.AsciiStepsFollowEncoding | src/learn/xor_visual.rs:40-45 | for ASCII text the input bytes are the UTF-8 bytes and the results their XOR with the keystream |
| XorVisual.NonAsciiExample | src/learn/xor_visual.rs:40-45 | "é" draws two keystream bytes, records one step, and shows 0xE9, which is neither of its UTF-8 bytes |
| NistVisual.PushBits | src/learn/nist_visual.rs:66-68 | the inner loop appends a byte's bits, most significant first |
| NistVisual.ExpandBits | src/learn/nist_visual.rs:64-69 | the nested loop builds the most-significant-first expansion |
| NistVisual.RecordSteps | src/learn/nist_visual.rs:63-140 | the five pushes record exactly the steps `NistStepsOf` describes |
| NistVisual.RandomChar | src/learn/nist_visual.rs:156-159 | byte `b` becomes character `33 + b % 93`, in 33..125 |
| NistVisual.RandomText | src/learn/nist_visual.rs:155-161 | one character per byte |
| NistVisual.NistProcess.constructor | src/learn/nist_visual.rs:33-44 | empty, first step, paused |
| NistVisual.NistProcess.Start | src/learn/nist_visual.rs:52-141 | resets the view and records the five frequency-test steps on the text's bytes, none for the empty text |
| NistVisual.NistProcess.GenerateRandom | src/learn/nist_visual.rs:143-164 | the drawn bytes become printable characters, which are then shown |
| NistVisual.NistProcess.CurrentStep | src/learn/nist_visual.rs:166-172 | none exactly when there are no steps, otherwise the step at the index |
| NistVisual.NistProcess.NextStep | src/learn/nist_visual.rs:174-180 | the cursor moves as `Next`, steps unchanged, bounds kept |
| NistVisual.NistProcess.PrevStep | src/learn/nist_visual.rs:182-186 | the cursor moves as `Prev`, steps unchanged, bounds kept |
| NistVisual.NistProcess.TogglePlay | src/learn/nist_visual.rs:188-190 | only playing flips |
| NistVisual.NistStepsShape | src/learn/nist_visual.rs:63-140 | none exactly for empty input; otherwise five steps in display order, all with the `8N`-bit expansion, counts adding to `8N`, sum ones minus zeros, and a verdict only at the last step, equal to `p >= 0.01` |
| NistVisual.NistSumIsMonobitSum | src/learn/nist_visual.rs:83-99 | the view's sum equals the test battery's monobit sum despite the other bit order |
| NistVisual.NistPValueIsFrequencyPValue | src/learn/nist_visual.rs:100-116 | the view's p-value equals the frequency test's on the same bytes |
| NistVisual.RandomTextIsPrintable | src/learn/nist_visual.rs:155-163 | the generated characters are printable ASCII in 33..125, so the test sees exactly as many bytes as were drawn |
| EntropyVisual.ProbabilitiesOf | src/learn/entropy_visual.rs:81-85 | one probability per counted byte value |
| EntropyVisual.ContributionsOf | src/learn/entropy_visual.rs:98-105 | one contribution per byte value with a probability |
| EntropyVisual.ComputeProbabilities | src/learn/entropy_visual.rs:81-85 | the loop over the dictionary, in any order, yields each count over `N` |
| EntropyVisual.ComputeContributions | src/learn/entropy_visual.rs:98-105 | the loop yields `-p log2 p` for positive `p` and 0 otherwise, in any order |
| EntropyVisual.RecordSteps | src/learn/entropy_visual.rs:64-144 | the five pushes record exactly the steps `EntropyStepsOf` describes |
| EntropyVisual.EntropyProcess.constructor | src/learn/entropy_visual.rs:34-45 | empty, first step, paused |
| EntropyVisual.EntropyProcess.Start | src/learn/entropy_visual.rs:53-145 | resets the view and records the five entropy steps on the text's bytes, none for the empty text |
| EntropyVisual.EntropyProcess.CurrentStep | src/learn/entropy_visual.rs:147-153 | none exactly when there are no steps, otherwise the step at the index |
| EntropyVisual.EntropyProcess.NextStep | src/learn/entropy_visual.rs:155-161 | the cursor moves as `Next`, steps unchanged, bounds kept |
| EntropyVisual.EntropyProcess.PrevStep | src/learn/entropy_visual.rs:163-167 | the cursor moves as `Prev`, steps unchanged, bounds kept |
| EntropyVisual.EntropyProcess.TogglePlay | src/learn/entropy_visual.rs:169-171 | only playing flips |
| EntropyVisual.EntropyStepsShape | src/learn/entropy_visual.rs:64-144 | none exactly for empty input; otherwise five steps in display order, all carrying the byte counts, probabilities from the second and contributions from the third step on exactly the counted keys, sums zero in the first three |
| EntropyVisual.ProbabilitiesSumToOne | src/learn/entropy_visual.rs:81-85 | the probabilities of a non-empty input add up to one |
| EntropyVisual.ProbabilitySums | src/learn/entropy_visual.rs:81-85 | the probabilities of the byte values below `k` add up to their counts over `N` |
| EntropyVisual.ContributionSums | src/learn/entropy_visual.rs:98-118 | the contributions of the byte values below `k` add up to the metrics' entropy sum over those buckets |
| EntropyVisual.TotalIsShannon | src/learn/entropy_visual.rs:117-118 | the view's total is the Shannon entropy the quality metrics report for the same bytes |
| EntropyVisual.MaxEntropyOfDistinctValues | src/learn/entropy_visual.rs:119-123 | a non-empty input has at least one distinct value, and the largest entropy is `log2` of their number |

## Left out

- Floating point: `sqrt`, the exponential in `erfc`, `log2` and the chi-square CDF of `statrs` are parameters (`Numerics`), and reals are exact. Rounding, the order of floating-point additions, and float comparisons at a boundary (the runs pre-test, `p >= 0.01`) are not modelled.
- `SystemEntropy` (the operating system's generator) is not part of this model. The keystream of the XOR view and the bytes of `generate_random` are parameters, and every `Source` ends in a `MockEntropy`.
- The default `name` of the trait ("Unknown Source") is a constant only: no modelled source uses it, because the mock overrides `name` and both forwarders forward it.
- `update(time)` of the three learning views, with the `speed` and `last_update` fields, is left out. It is autoplay timing on floating-point clocks; what it calls, `next_step`, is modelled, and `Navigation.AdvanceClamps` covers repeated calls.
- HashMap iteration order: the dictionaries are `map`s, and the loops over them pick keys in any order.
- `usize`/`i64` overflow is not modelled: `bytes_processed`, the counts and the monobit sum are unbounded integers.
- The GUI (`src/viz/app.rs`, `src/main.rs`), the benchmarks (`src/bench/performance.rs`), the examples, and the module wiring files are not part of this model.
- Tests that draw from the operating system's generator (`test_chi_square`, `test_run_all`, `test_analyze_system`, `test_overall_score`, and the statistical outcomes of `test_frequency_test_uniform` and `test_frequency_test_biased`) are not modelled. Only their exact integer inputs are (`Nist.MonobitSumAllOnes`, `Nist.MonobitSumAlternating`).
- Cipher.StreamCipher.State: its contract gives only the length of the returned bytes; what they are is stated by `Process` and `Reset`.
