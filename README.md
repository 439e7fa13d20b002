# RandomGen: a weighted discrete sampler, modelled and proved in Dafny

`RandomGen` is built from two parallel arrays: a value array and a weight
("probability") array. The constructor validates the weights and drops every
entry whose weight is within `PRECISION` (0.0001) of zero. For the entries it
keeps, it writes a table of running sums into `cumProbabilities` and counts them
in `totalNonZeroProbElement`. `nextNum` takes a uniform draw `r` and returns the
first kept value whose running sum is at least `r`. When no running sum is, it
returns the last kept value.

The project has four modules:

- `Precision` (`precision.dfy`): the constant `PRECISION`, the tolerance
  comparisons `EqualsWithPrecision`, `IsGreaterThan` and `IsLessThan`, and the
  `Weight` datatype. A weight is a real number, NaN or an infinity, so NaN and
  the infinities can be refused.
- `Distribution` (`distribution.dfy`): the specification on values.
  - `KeptWeights`, `KeptValues` and `KeptIndices` are the filter.
  - `PrefixSums` is the running-sum table.
  - `FirstRejected` is the first position at which the constructor's loop throws.
  - `Build` is the whole constructor. It returns `Ok(Table)` or `Err(Error)`, with
    one `Error` case for each `IllegalArgumentException`.
  - `SelectIndex` and `Select` are the draw rule.
  - Lemmas state the filter, table and selection properties.
- `Sampler` (`random_gen.dfy`): the class `RandomGen`. Its array fields
  `randomNums` and `cumProbabilities` and its counter `totalNonZeroProbElement`
  are updated in place, as in Java.
  - `Create` runs the constructor.
  - `Load` is the constructor's loop. `Absorb` is one turn of that loop, and
    `Finish` is the checks after it.
  - `NextNum` is the scan. Its loop runs over the whole `cumProbabilities` array,
    including the zero slots past the counter, as the Java loop does. The proof
    shows that the index it returns is always below `totalNonZeroProbElement`.
  - Each method is proved against `Build` or `Select`.
- `Scenarios` (`scenarios.dfy`): the concrete cases of `RandomGenTest.java`, stated
  on `Build`, `Select` and the object.

The tolerance is applied unevenly, and the model follows the code as written:

- The per-entry range check accepts weights strictly less than `PRECISION`
  beyond 0 and 1: `-0.0001` and `1.0001` are refused.
- The running-sum check has no lower side. It accepts running sums below
  `1 + PRECISION`.
- The zero filter uses `PRECISION`.
- The final check at `src/main/java/RandomGen.java:54` compares the last running
  sum with `1.0f` exactly, although its message speaks of a tolerance. So `Build`
  demands a total of exactly 1 (lemma `Scenarios.ExactTotal`).
- The draw comparison at line 66 is a plain `<=`.

## Model

| member | source | states |
|---|---|---|
| Precision.EqualsWithPrecision | src/main/java/RandomGen.java:74-76 | two weights are equal within the tolerance iff `a` lies strictly inside `(b - PRECISION, b + PRECISION)` |
| Precision.IsGreaterThan | src/main/java/RandomGen.java:82-87 | `a` is greater iff it is at least `b + PRECISION` |
| Precision.IsLessThan | src/main/java/RandomGen.java:89-94 | `a` is less iff it is at most `b - PRECISION` |
| Precision.IsNanOrInfinite | src/main/java/RandomGen.java:78-80 | a weight is NaN or infinite iff it is not a finite number |
| Distribution.InRange | src/main/java/RandomGen.java:28-33 | an entry passes the per-weight check iff it is finite and lies strictly between `-PRECISION` and `1 + PRECISION`; NaN and infinities fail |
| Distribution.Retained | src/main/java/RandomGen.java:35-37 | an entry gets a slot iff its weight is finite and at least `PRECISION` away from 0 |
| Distribution.PrefixSums | src/main/java/RandomGen.java:39-40 | the table has one running sum per kept weight, and the last one is the total of the kept weights |
| Distribution.PrefixSumsAt | src/main/java/RandomGen.java:39-40 | entry `k` of the table is the sum of the first `k+1` kept weights |
| Distribution.PrefixSumsStep | src/main/java/RandomGen.java:39-40 | each slot holds its own weight plus the previous slot (the first slot holds its weight alone) |
| Distribution.PrefixSumsSteps | src/main/java/RandomGen.java:39-40 | the first slot is the first weight, and consecutive slots differ by exactly the later entry's weight |
| Distribution.PrefixSumsAppend | src/main/java/RandomGen.java:39-40 | keeping one more weight appends the old total plus that weight to the table |
| Distribution.SumAppend | src/main/java/RandomGen.java:39-40 | adding one more weight raises the total by that weight |
| Distribution.RunningSumStep | src/main/java/RandomGen.java:39-40 | the value the loop writes for a kept entry (the previous slot, or 0, plus its weight) is the new total, and the table grows by exactly that slot |
| Distribution.KeptWeightsStep | src/main/java/RandomGen.java:35-47 | one more input entry adds its weight to the kept weights exactly when it is retained |
| Distribution.KeptValuesStep | src/main/java/RandomGen.java:35-47 | one more input entry appends its value to the kept values exactly when it is retained |
| Distribution.KeptWeights | src/main/java/RandomGen.java:35-37 | the weights of the retained entries, in input order; `KeptWeightsAt` proves they are exactly the weights at the retained positions |
| Distribution.KeptValues | src/main/java/RandomGen.java:46-47 | `validNums`: no more values than the input has; `KeptValuesAt` proves they are exactly the values at the retained positions, in input order |
| Distribution.KeptIndices | src/main/java/RandomGen.java:35-37 | every kept position is an input position whose entry is retained |
| Distribution.KeptIndicesSpec | src/main/java/RandomGen.java:35-47 | kept positions strictly increase (input order), and every retained position is among them |
| Distribution.KeptWeightsAt | src/main/java/RandomGen.java:35-47 | the kept weights are exactly the weights at the kept positions, in order |
| Distribution.KeptValuesAt | src/main/java/RandomGen.java:46-47 | the kept values are exactly the values at the kept positions, in order |
| Distribution.KeptLength | src/main/java/RandomGen.java:46-47 | as many values are kept as weights |
| Distribution.KeptWeightsPositive | src/main/java/RandomGen.java:35-37 | when every weight passed the range check, every kept weight is at least `PRECISION`, so positive |
| Distribution.PositiveSumsIncrease | src/main/java/RandomGen.java:39-40 | running sums of positive weights strictly increase |
| Distribution.KeptSumMonotone | src/main/java/RandomGen.java:39-44 | with in-range weights, the kept total of any prefix is at most the kept total of the whole input |
| Distribution.Rejected | src/main/java/RandomGen.java:29-44 | the loop throws at entry `i` iff its weight fails the range check, or it is retained and lifts the running sum to `1 + PRECISION` or more |
| Distribution.FirstRejected | src/main/java/RandomGen.java:27-44 | finds the first position where the loop throws (an out-of-range weight, or a retained weight that lifts the running sum above 1 by `PRECISION` or more); no earlier position throws |
| Distribution.FirstRejectedAt | src/main/java/RandomGen.java:27-44 | a position reached without a throw, at which the loop throws (or the end), is the one `FirstRejected` finds |
| Distribution.NotRejectedInRange | src/main/java/RandomGen.java:28-33 | a loop that throws nowhere has checked that every weight is in range |
| Distribution.Build | src/main/java/RandomGen.java:16-61 | construction is refused as `BadShape` iff the lengths differ or the arrays are empty; a successful table is valid (first slot at least `PRECISION`, strictly increasing, last slot exactly 1, one value per slot) |
| Distribution.BuildNoneRejected | src/main/java/RandomGen.java:50-59 | after a loop with no throw, the result is `OnlyZeroProbabilities` when nothing is kept, `TotalNotOne` when the kept total is not exactly 1, and otherwise the kept values with their running sums |
| Distribution.KeptTableValid | src/main/java/RandomGen.java:39-59 | the kept values and running sums of in-range weights with total exactly 1 form a valid table |
| Distribution.BuildSucceedsIff | src/main/java/RandomGen.java:16-61 | construction succeeds iff the lengths are equal and non-zero, every weight is in range, some entry is retained, and the kept weights add up to exactly 1; the per-prefix check never refuses such input |
| Distribution.BuildAccepts | src/main/java/RandomGen.java:50-59 | for such input, construction yields the kept values and the running sums of the kept weights |
| Distribution.BuildTableEntries | src/main/java/RandomGen.java:35-47 | a built table holds, in input order, the value of each retained entry, and each retained weight is at least `PRECISION` |
| Distribution.BuildTableWidths | src/main/java/RandomGen.java:39-40 | in a built table, the first slot is the first retained weight, and each later slot exceeds the previous one by exactly its entry's weight |
| Distribution.FirstCovering | src/main/java/RandomGen.java:65-68 | the first-match scan: the least position from `from` on whose running sum is at least the draw, with every earlier one below it, or the length when there is none |
| Distribution.SelectIndex | src/main/java/RandomGen.java:63-72 | the selected slot is a table slot; every earlier slot is below the draw; and the draw is at most this slot, or this is the last slot |
| Distribution.Select | src/main/java/RandomGen.java:63-72 | the value `nextNum` returns is one of the table's values, namely the value at `SelectIndex`: the least slot covering the draw, or the last slot |
| Distribution.SelectInterval | src/main/java/RandomGen.java:65-68 | a draw selects slot `i` iff it is above the previous running sum (any draw for slot 0) and at most the running sum of `i`, or `i` is the last slot |
| Distribution.SelectCovers | src/main/java/RandomGen.java:65-67 | a draw of at most 1 always lands on a slot whose running sum covers it (the fallback return is never needed) |
| Distribution.SelectRetained | src/main/java/RandomGen.java:63-72 | the selected value is the value of a retained input entry |
| Distribution.ZeroWeightNeverSelected | src/test/java/RandomGenTest.java:72-77 | a value whose every entry has a weight within `PRECISION` of 0 is never drawn |
| Distribution.SoleRetainedAlwaysSelected | src/test/java/RandomGenTest.java:79-84 | when a single entry is retained, every draw returns its value |
| Sampler.RandomGen.constructor | src/main/java/RandomGen.java:24-25 | allocates a zeroed running-sum array as long as the input, with no kept entry yet |
| Sampler.RandomGen.Create | src/main/java/RandomGen.java:16-61 | construction fails iff `Build` does, with the same error; on success the fresh object is valid and holds exactly the table `Build` describes |
| Sampler.RandomGen.Load | src/main/java/RandomGen.java:27-59 | the loop and the checks after it fail iff `Build` does, with the same error; otherwise the arrays hold `Build`'s table and the slots past the counter are 0 |
| Sampler.RandomGen.Absorb | src/main/java/RandomGen.java:28-47 | one turn either throws the error `Build` reports for the input, or extends the running sums and kept values by this entry's contribution |
| Sampler.RandomGen.Finish | src/main/java/RandomGen.java:50-59 | the after-loop checks fail iff `Build` does, with the same error; otherwise `randomNums` holds the kept values |
| Sampler.RandomGen.NextNum | src/main/java/RandomGen.java:63-72 | scanning the full array, zero slots included, returns `Select` of the held table for the draw; the index read is always below the counter |
| Scenarios.ToleranceEdges | src/main/java/RandomGen.java:28-37 | `-0.00005` passes and is dropped; `1.00005` passes and is kept; `-0.0001`, `1.0001`, NaN and both infinities are refused |
| Scenarios.ShapeCases | src/test/java/RandomGenTest.java:21-37 | the mismatched-length cases of the tests, and empty arrays, are refused as `BadShape` |
| Scenarios.OnlyZeroCases | src/test/java/RandomGenTest.java:39-43 | `[0]` and `[0, 0]` are refused as `OnlyZeroProbabilities` (also the case at line 18) |
| Scenarios.NaNCase | src/test/java/RandomGenTest.java:46-48 | `[NaN, 0.4]` is refused as an invalid probability |
| Scenarios.TotalCase | src/test/java/RandomGenTest.java:50-51 | `[0.1, 0.2]` is refused as `TotalNotOne` |
| Scenarios.CumulativeCase | src/main/java/RandomGen.java:42-44 | `[0.6, 0.6]` is refused as `CumulativeExceedsOne` |
| Scenarios.ExactTotal | src/main/java/RandomGen.java:54-56 | totals of `0.99995` and `1.00005` are refused as `TotalNotOne`: the final check is exact |
| Scenarios.ExampleKeptWeightsHead | src/test/java/RandomGenTest.java:55-57 | proof step of `ExampleKeptWeights`: the first four example entries keep the weights 0.3 and 0.5 |
| Scenarios.ExampleKeptWeights | src/test/java/RandomGenTest.java:55-57 | the example keeps the weights 0.3, 0.5 and 0.2 |
| Scenarios.ExampleKeptValuesHead | src/test/java/RandomGenTest.java:55-57 | proof step of `ExampleKeptValues`: the first four example entries keep the values 2 and 1 |
| Scenarios.ExampleKeptValues | src/test/java/RandomGenTest.java:55-57 | the example keeps the values 2, 1 and 4 |
| Scenarios.ExampleSums | src/test/java/RandomGenTest.java:55-57 | the running sums of 0.3, 0.5 and 0.2 are 0.3, 0.8 and 1 |
| Scenarios.ExampleTable | src/test/java/RandomGenTest.java:55-59 | values `[-1,-4,2,1,3,4,5]` with weights `[0,0,0.3,0.5,0,0.2,0]` build the table `2:0.3, 1:0.8, 4:1` |
| Scenarios.ExampleDraws | src/test/java/RandomGenTest.java:60-69 | on that table, draws 0.2 and 0.3 give 2, 0.35 gives 1, 0.85 and 0.98 give 4 |
| Scenarios.ExampleThroughObject | src/test/java/RandomGenTest.java:55-69 | the same construction and draws through `Create` and `NextNum` give 2, 2, 1, 4, 4 |
| Scenarios.ZeroCaseKeptHead | src/test/java/RandomGenTest.java:74 | proof step of `ZeroCaseKept`: the first two of `[0.1, 0, 0.6, 0.3]` keep only 0.1 |
| Scenarios.ZeroCaseSum | src/test/java/RandomGenTest.java:74 | proof step of `ZeroCaseKept`: 0.1, 0.6 and 0.3 add up to 1 |
| Scenarios.ZeroCaseKept | src/test/java/RandomGenTest.java:74 | `[0.1, 0, 0.6, 0.3]` keeps 0.1, 0.6 and 0.3, which add up to 1 |
| Scenarios.ZeroCaseDropped | src/test/java/RandomGenTest.java:74 | proof step of `ZeroWeightCase`: the only entry of value 2 has weight 0 and is dropped |
| Scenarios.ZeroWeightCase | src/test/java/RandomGenTest.java:72-77 | that sampler builds, and no draw gives 2 |
| Scenarios.SoleCaseKept | src/test/java/RandomGenTest.java:81 | `[0, 1, 0, 0]` keeps only the weight 1 |
| Scenarios.SoleCaseZeros | src/test/java/RandomGenTest.java:81 | proof step of `SoleWeightCase`: every entry of `[0, 1, 0, 0]` except the second is dropped |
| Scenarios.SoleWeightCase | src/test/java/RandomGenTest.java:79-84 | that sampler builds, and every draw gives 2 |

## Left out

- `java.util.Random` and the two-argument constructor (src/main/java/RandomGen.java:12-14, :60, :64) are not modelled: the draw is a parameter of `NextNum` and `Select`, so every statement holds for every draw.
- IEEE-754 single-precision rounding is not modelled: weights and running sums are exact reals. So `PRECISION` is exactly 1/10000, and the sums `Objects.equals` compares are exact. Whether a given `float` table sums to exactly `1.0f` is not captured.
- Null arrays (src/main/java/RandomGen.java:17-18) cannot occur: sequences are never null.
- Java's 32-bit `int` values are modelled as `int`. The sampler only copies them and never computes with them, so their width plays no part.
- A Java constructor throws, but a Dafny constructor cannot fail. `Create` does the shape check and reports every `IllegalArgumentException` as an `Err` value. It allocates through the constructor and fills the fields in place through `Load`. A sampler that fails mid-loop is discarded, as the Java object is. The exception messages are not modelled; the `Error` cases name them.
- `NaN` and the infinities are cases of `Weight`, not real numbers. They are refused by the per-entry check, as in the source. The order in which the source tests them against the other two checks makes no difference and is not modelled.
- src/main/java/Main.java is not part of this model. It is a console demo driver.
- The statistical test (src/test/java/RandomGenTest.java:86-107) and the `RandomMock` plumbing (lines 110-121) are not modelled. Only their deterministic content is kept: `SelectInterval` with `BuildTableWidths` gives each entry an interval of draws exactly as wide as its weight.
