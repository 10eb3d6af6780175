# Chromosome replication-state engine (ReDyMo-CPP), in Dafny

This project models `Chromosome`, the per-base replication-state engine of the
ReDyMo DNA-replication simulator. A chromosome is built from a data provider.
It has a fixed length N, a strand of N replication markers, a landscape of N
activation probabilities and a count of replicated bases. Each marker starts
as the sentinel -1. `replicate(start, end, fork)` overwrites a marker with a
fork id. The model rebuilds the class from the assertions of the chromosome's
test suite, and follows the system's design where the tests are silent.

Files:

- `errors.dfy`: the two exceptions as values. `std::invalid_argument` becomes
  `InvalidArgument` and `std::out_of_range` becomes `OutOfRange`. `Result`
  covers operations that return a value and `Outcome` covers void operations.
- `strand.dfy`: the strand as a sequence. It defines the fresh state, marking
  an inclusive range (`Marked`) and the replicated-base count, with lemmas
  about how marking changes the count.
- `landscape.dfy`: damping the activation landscape around a fired origin,
  through a kernel given as a parameter, and what damping guarantees.
- `state_dump.dfy`: the text `to_string` writes (one decimal line per base,
  each ending in a newline), a reader for it and the round trip.
- `provider.dfy`: the data provider as two answers per chromosome code: the
  length and the landscape. It also holds the test double `TestingProvider`.
- `chromosome.dfy`: the class `Chromosome`. The strand and the landscape are
  arrays and the counter is a field. The object invariant `Valid()` ties the
  counter to the strand. Each method is proved against the functions of
  `strand.dfy`, `landscape.dfy` and `state_dump.dfy`.
- `chromosome_tests.dfy`: each gtest case as a client method. Its
  postcondition is what the test asserts, proved from the class contracts
  alone.

Design choices:

- A failing C++ constructor becomes the static method `Create`, which returns
  `Err(InvalidArgument)` when the provider's length is not positive.
- `operator[]` is modelled as the range-checked accessor `At`, mirroring
  `base_is_replicated`. The tests only read in-range bases.
- `replicate` checks only `start`. It clamps `end` to N-1, marks the inclusive
  range and returns `true`. A range that is already replicated is simply
  overwritten (last writer wins), and the call still returns `true`. The
  counter goes up by one for each marked base that was unreplicated, so it
  always equals the number of non-sentinel bases.

## Model

| member | source | states |
|---|---|---|
| `Chromosomes.Chromosome.Create` | test/test_chromosome.cpp:82-95 | fails with InvalidArgument exactly when the provider's length is not positive; otherwise the chromosome has that size, the given code (`get_code`), an all-unreplicated strand and the provider's landscape |
| `Chromosomes.Chromosome.GetCode` | test/test_chromosome.cpp:200 | returns the chromosome's identifier, the code it was created with (`Create` fixes it to the code argument); no operation changes it |
| `Chromosomes.Chromosome.Size` | test/test_chromosome.cpp:89-95 | the size is positive and equals the length of both per-base arrays |
| `Chromosomes.Chromosome.BaseIsReplicated` | test/test_chromosome.cpp:99-120 | out of range exactly when the index is outside [0, N); otherwise true iff the base carries a fork id |
| `Chromosomes.Chromosome.At` | test/test_chromosome.cpp:202-208 | out of range exactly outside [0, N); otherwise the base's raw state (sentinel or fork id) |
| `Chromosomes.Chromosome.ActivationProbability` | test/test_chromosome.cpp:124-146 | out of range exactly outside [0, N); otherwise the landscape value at the base |
| `Chromosomes.Chromosome.GetNReplicatedBases` | test/test_chromosome.cpp:185-191 | the count is between 0 and N and equals the number of bases carrying a fork id |
| `Chromosomes.Chromosome.IsReplicated` | test/test_chromosome.cpp:193-198 | true iff every base carries a fork id |
| `Chromosomes.Chromosome.Replicate` | test/test_chromosome.cpp:169-191 | out of range exactly when start is outside [0, N), leaving the strand unchanged; otherwise returns true and the strand is the old one with start..min(end, N-1) overwritten by the fork; the counter stays equal to the replicated-base count and never decreases |
| `Chromosomes.Chromosome.SetDormantActivationProbability` | test/test_chromosome.cpp:151-168 | out of range exactly outside [0, N), leaving the landscape unchanged; otherwise the landscape is damped around the base by the kernel; the object invariant is kept |
| `Chromosomes.Chromosome.ToString` | test/test_chromosome.cpp:210-215 | the text is the dump of the strand: one decimal line per base, in order, each ending in a newline |
| `Strand.CountReplicated` | test/test_chromosome.cpp:185-191 | the replicated-base count never exceeds the number of bases |
| `Strand.CountFresh` | test/test_chromosome.cpp:108-114 | a fresh chromosome has no replicated base |
| `Strand.CountAll` | test/test_chromosome.cpp:193-198 | the count equals the length iff every base carries a fork id |
| `Strand.CountUpdate` | test/test_chromosome.cpp:187-190 | overwriting one base changes the count by exactly the difference of the old and new replicated indicators |
| `Strand.CountMarked` | test/test_chromosome.cpp:185-191 | after marking lo..hi, the count is the replicated bases outside the range plus hi - lo + 1 |
| `Strand.CountMarkedFresh` | test/test_chromosome.cpp:185-191 | on a fresh chromosome, marking lo..hi leaves exactly hi - lo + 1 replicated bases (31 for 0..30) |
| `Strand.MarkedMonotone` | test/test_chromosome.cpp:179-183 | replication is monotonic for every range a valid `replicate` call marks, an end before the start included: a replicated base stays replicated and the count never decreases, also when a range is re-replicated |
| `Strand.MarkedWholeStrand` | test/test_chromosome.cpp:193-198 | marking 0..N-1 replicates every base |
| `StateDump.DumpSnoc` | test/test_chromosome.cpp:210-215 | dumping one more base appends exactly one line |
| `StateDump.DumpRoundTrip` | test/test_chromosome.cpp:210-215 | reading a dump back line by line gives the strand it was written from |
| `StateDump.IntRoundTrip` | test/test_chromosome.cpp:210-215 | a line holding a state's decimal form, sentinel included, reads back as that state |
| `Landscape.DampingSuppresses` | test/test_chromosome.cpp:151-160 | with a kernel that scales by factors in [0, 1], damping keeps probabilities in [0, 1], never raises one, leaves bases beyond the radius unchanged and strictly lowers positive values where the factor is below one |
| `Provider.TestingProvider` | test/test_chromosome.cpp:8-58 | the test double answers `size` for every code, is consistent, and gives each base the probability 1/(size+1) |
| `ChromosomeTests.CreateChromosome` | test/test_chromosome.cpp:70-75 | create_chromosome(size) builds chromosome "1" of that size, all unreplicated, over the uniform landscape |
| `ChromosomeTests.ZeroOrNegativeLength` | test/test_chromosome.cpp:82-85 | a zero-length provider makes construction fail with InvalidArgument |
| `ChromosomeTests.SizeScenario` | test/test_chromosome.cpp:89-95 | sizes 300 and 500 are reported |
| `ChromosomeTests.OutOfRangeQueries` | test/test_chromosome.cpp:99-128 | base_is_replicated(400), base_is_replicated(301), activation_probability(301) and activation_probability(400) fail with OutOfRange on N = 300 |
| `ChromosomeTests.BaseIsReplicatedScenario` | test/test_chromosome.cpp:108-120 | no base of a fresh 300-base chromosome is replicated; replicate(4, 6, 1) succeeds, and afterwards bases 4 and 5 are replicated |
| `ChromosomeTests.ActivationProbabilityScenario` | test/test_chromosome.cpp:132-146 | bases 0 and 10 succeed; the probability is 1/301 at base 0 for N = 300 and 1/501 at base 4 for N = 500 |
| `ChromosomeTests.SetDormantScenario` | test/test_chromosome.cpp:151-160 | after damping at 150000 on N = 300000, every base in 130000..169999 stays below 1/300000 + 1 |
| `ChromosomeTests.SetDormantOutsideChromosome` | test/test_chromosome.cpp:162-168 | damping at 400 or at -1 fails with OutOfRange on N = 300 |
| `ChromosomeTests.OutOfRangeReplicate` | test/test_chromosome.cpp:171-175 | replicate(-3, 6, 30) and replicate(301, 150, 30) fail with OutOfRange |
| `ChromosomeTests.InRangeReplicate` | test/test_chromosome.cpp:179-183 | replicate(3, 1500, 30) and then replicate(3, 15, 30) both succeed |
| `ChromosomeTests.ReplicateScenario` | test/test_chromosome.cpp:185-191 | replicate(0, 30, 1) returns true, bases 0..29 are replicated and the count is 31 |
| `ChromosomeTests.IsReplicatedScenario` | test/test_chromosome.cpp:193-198 | not replicated at first, replicated after replicate(0, 300, 1) |
| `ChromosomeTests.GetCodeScenario` | test/test_chromosome.cpp:200 | the code is "1" |
| `ChromosomeTests.OperatorVector` | test/test_chromosome.cpp:202-208 | bases 0 and 299 read -1; after replicate(0, 1, 1), base 0 reads 1 |
| `ChromosomeTests.ToStringScenario` | test/test_chromosome.cpp:210-215 | a 3-base chromosome after replicate(0, 1, 1) dumps exactly "1\n1\n-1\n" |

## Left out

- Chromosomes.Chromosome.SetDormantActivationProbability: the calibrated Gaussian damping kernel is floating-point numerics whose width and shape are not given. The kernel is a parameter instead: a radius and a factor per distance. Only the index check, the window of bases it touches and the "never raises" guarantee (`Landscape.DampingSuppresses`, for factors in [0, 1]) are modelled. Real numbers stand for the C++ `double`s, so rounding is not modelled.
- Chromosomes.Chromosome.Replicate: requires a fork id other than the sentinel -1. Fork ids are positive in the system's data model, and writing the sentinel would undo replication, which no operation may do.
- Chromosomes.Chromosome.Create: requires the provider to give one landscape value per base whenever the length is positive. That is the provider's own contract, not a check the chromosome makes.
- ChromosomeTests.SetDormantScenario: the bound the test checks, `(double)1 / size + 1`, is about 1.0000033 because of operator precedence. The scenario proves that bound as written, and it constrains almost nothing.
- Transcription regions and constitutive origins: the chromosome copies these lists from the provider and never changes or reads them itself, so they are not modelled.
- The provider's `get_codes`: the test double returns a reference to a local vector. That is a dangling reference, not behaviour, so it is not modelled.
- `Chromosome` copies and `shared_ptr` ownership: not modelled. Each chromosome owns its arrays, which are fresh at construction.
- The DataManager provider is not part of this model. It reads an SQLite database and signal files from disk, and it resamples the signal into buckets in floating point.
- The test fixtures, gtest/gmock and `main` are not part of this model.
- Concurrency: the chromosome is single-threaded and the model is sequential.
