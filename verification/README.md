# Volume changes between treatment phases: a Dafny model

This project models the core of `c_art_2_volume_changes`. That tool reads a
table of patients with the volume of three regions of interest (ROIs: GTV,
GTV_N and PTV_DP), each measured at three treatment phases. For each ROI and
each phase transition (1 to 2, 2 to 3), it reports:

- the mean volume at the start phase;
- the mean and the sample standard deviation of the per-patient volume
  differences;
- how many patients contributed.

The model covers the library part of the tool (`src/lib.rs`):

- `Record`: one input row.
- The pairwise differencer `avg_std_dev_from_vectors` (`Differencer`). It pairs
  two vectors of optional volumes by position, keeps the differences
  `v1[i] - v2[i]` whose operands are both present and whose value is not NaN,
  and returns their mean, their Bessel-corrected spread and their count. A
  length mismatch is an error.
- The ROI accumulator `Data` (`Accumulator`), which covers:
  - `new`;
  - `add_vol`, which appends a triple only when all three volumes are present
    and not NaN;
  - `clear`;
  - `phase_1_to_2_stat` and `phase_2_to_3_stat`.
- `records_to_data` (`Records`), which feeds every row to the GTV, GTV_N and
  PTV_DP accumulators.
- The output row `Stat` with its identity-only `PartialEq` and `Ord` (`Stats`).
- `Vec::sort` on rows (`Sorting`).
- `add_data` and `dataset_to_stats` (`Aggregate`).
- Worked examples on concrete values (`Scenarios`).

`f64` is modelled by `Numbers.Num`: a finite real, NaN, or a signed infinity.
Addition, subtraction, squaring and division follow IEEE 754 for NaN and the
infinities, but there is no rounding. Sums are left folds from zero, like
`Iterator::sum`.

Every operation is a pure function. The accumulator's private vectors become a
plain datatype with an invariant `Valid`: equal lengths, and only admissible
triples. `new`, `add_vol` and `clear` keep that invariant. The statistics are
defined on every `Data`, valid or not, so the length-mismatch paths stay
reachable.

Behaviours of the code worth knowing:

- **Sign of the mean difference.** `avg` is the mean of `v1 - v2`, with `v1`
  the start phase (`src/lib.rs:61`). A volume that grows from phase 1 to
  phase 2 therefore gives a negative mean difference: −1.5 for the GTV rows
  of `Scenarios.GtvRowsPhase1To2`. `Differencer.SwappedArguments` shows that
  the order matters.
- **Too few data points.** With zero or one kept difference, the source
  neither fails nor returns an error; its only trace is the `debug!` log
  written when positions are dropped. It returns what the arithmetic gives:
  a NaN mean from `0/0` when nothing is kept, and a NaN spread when one
  difference is kept. `Differencer.AvgStdDev` states exactly this.
- **Start volume of the 2 to 3 transition.** It divides the phase-2 sum by
  the length of the phase-1 vector (`src/lib.rs:147`). This matters only on a
  vector layout that `new`, `add_vol` and `clear` cannot produce.
  `Accumulator.Phase2To3DividesByPhase1Length` exhibits such a layout, and
  `Accumulator.StatsOfFiniteData` shows that the invariant makes the value
  the phase-2 mean.

## Model

| member | source | states |
|---|---|---|
| Numbers.Add | src/lib.rs:74 | `f64` addition: finite operands give their real sum; the result is NaN exactly when an operand is NaN or infinities of opposite sign meet |
| Numbers.Sub | src/lib.rs:61 | `o1 - o2`: finite operands give their real difference; NaN exactly when the operands are not subtractable (a NaN, or equal infinities) |
| Numbers.Square | src/lib.rs:76 | `powf(d - avg, 2.0)`: the real square for finite input, NaN exactly for NaN, and never negative infinity |
| Numbers.Div | src/lib.rs:74 | division by `n as f64`: a real quotient for a non-zero divisor; NaN exactly for a NaN numerator or `0/0` |
| Numbers.SumOfFinite | src/lib.rs:74 | `Iterator::sum` over finite values is their real sum |
| Differencer.KeptIndicesExact | src/lib.rs:57-67 | the positions the `zip`/`filter_map`/`filter` pipeline keeps are listed in strictly increasing order, and a position is listed exactly when both values are present and their difference is not NaN |
| Differencer.DifferencesAtKeptIndices | src/lib.rs:57-67 | the collected differences are `v1[k] - v2[k]`, one per kept position, in position order |
| Differencer.AvgStdDev | src/lib.rs:43-80 | fails exactly when the lengths differ, with both lengths in the error; otherwise `n` is the number of kept positions and at most the length; with no kept difference the mean is NaN, and with one the spread is NaN |
| Differencer.CountIsFullIffAllKept | src/lib.rs:68-73 | the count equals the vector length exactly when every position contributes a difference (the condition under which nothing is logged) |
| Differencer.SingleDifference | src/lib.rs:75-78 | a single non-NaN difference yields a NaN spread: `0/0` for a finite difference, `NaN/0` for an infinite one |
| Differencer.AvgStdDevOfFiniteValues | src/lib.rs:57-78 | on data with no infinities (a present NaN allowed), a position is kept exactly when both values are present and neither is NaN; the mean is the mean of the real differences at the kept positions, and from two differences on the spread is their sample variance |
| Differencer.SwappedArguments | src/lib.rs:61 | swapping the two vectors negates the mean and leaves the spread and the count unchanged |
| Differencer.ShiftInvariance | src/lib.rs:57-78 | adding the same constant to every present value of both vectors changes neither the mean, nor the spread, nor the count |
| Stats.CompareStringsEqual | src/lib.rs:237 | `String::cmp` says `Equal` exactly for equal strings |
| Stats.CompareStringsIsLexicographic | src/lib.rs:237 | `String::cmp` says `Less` exactly when the first string is a proper prefix of the second, or is smaller at the first position where they differ |
| Stats.CompareStringsTransitive | src/lib.rs:237 | `Less` on strings is transitive |
| Stats.CompareEqualIsSameIdentity | src/lib.rs:225-247 | `cmp` returns `Equal` exactly when `eq` holds, i.e. on equal `(roi_name, phase_start, phase_end)` |
| Stats.CompareIsLexicographic | src/lib.rs:235-247 | `cmp` says `Less` exactly for a lexicographically smaller identity tuple: name first, then start phase, then end phase |
| Stats.CompareSeesOnlyIdentity | src/lib.rs:235-247 | rows with the same identities compare alike, whatever their numeric fields |
| Stats.CompareReverse | src/lib.rs:235-247 | swapping the operands reverses the ordering |
| Stats.LeIsTotalPreorder | src/lib.rs:235-253 | `<=` on rows is reflexive, total and transitive, and rows below each other have the same identity |
| Sorting.Insert | src/lib.rs:266 | inserting into a sorted sequence yields a sorted sequence holding one more copy of the row |
| Sorting.SortStats | src/lib.rs:266 | `v.sort()` returns a sorted permutation of its input |
| Sorting.SortStatsOfSorted | src/lib.rs:266 | sorting an already sorted sequence leaves it unchanged |
| Accumulator.NewData | src/lib.rs:97-104 | a new accumulator has the given name, three empty vectors, and satisfies the invariant |
| Accumulator.AddVol | src/lib.rs:114-124 | an admissible triple is appended at the end of the three vectors; otherwise nothing changes; the name and the invariant are kept |
| Accumulator.Clear | src/lib.rs:127-131 | clearing keeps the name and empties the three vectors |
| Accumulator.Phase1To2Stat | src/lib.rs:133-145 | fails exactly when phases 1 and 2 differ in length, with the differencer's error; otherwise a row named after the ROI, phases 1 to 2, carrying the differencer's mean, spread and count; never fails on a valid accumulator |
| Accumulator.Phase2To3Stat | src/lib.rs:146-158 | as above for phases 2 to 3 |
| Accumulator.StatsOfFiniteData | src/lib.rs:133-158 | on a valid, non-empty accumulator with finite volumes, each start volume is the mean of its start phase, and every stored triple contributes to the count |
| Accumulator.Phase2To3DividesByPhase1Length | src/lib.rs:147 | with an empty phase-1 vector and one positive phase-2 volume `x`, the 2 to 3 start volume is +infinity rather than `x` |
| Records.Accumulate | src/lib.rs:178-194 | feeding rows to an accumulator keeps its name and its invariant, and grows it by at most one triple per row |
| Records.AccumulateAppendsAdmitted | src/lib.rs:178-194 | feeding rows appends, phase by phase, exactly the ROI's admissible triples in row order |
| Records.AccumulateSeesOnlyItsRoi | src/lib.rs:178-194 | an accumulator depends only on its own ROI's volumes, so rows that agree on them build the same accumulator |
| Records.RoiData | src/lib.rs:175-194 | a ROI's accumulator is named after the ROI, valid, and holds exactly its admissible triples in row order |
| Records.RecordsToData | src/lib.rs:174-196 | three accumulators named GTV, GTV_N and PTV_DP, in that order, each valid and holding exactly its admissible triples |
| Aggregate.AddData | src/lib.rs:255-259 | appends the 1 to 2 and then the 2 to 3 row, and succeeds exactly when both can be computed, otherwise returning the first error met |
| Aggregate.CollectStats | src/lib.rs:262-265 | the loop succeeds exactly when every accumulator's rows can be computed, then yielding two rows per accumulator in dataset order; otherwise it returns the error of the first failing accumulator |
| Aggregate.StatRowsAt | src/lib.rs:263-265 | rows `2i` and `2i + 1` of the loop's output are the 1 to 2 and 2 to 3 rows of accumulator `i` |
| Aggregate.DatasetToStats | src/lib.rs:261-268 | succeeds exactly when every accumulator's rows can be computed, then giving a sorted permutation of the loop's rows, two per accumulator; otherwise the first accumulator's error |
| Aggregate.OutputHoldsEveryStat | src/lib.rs:261-268 | both rows of every accumulator appear in the output |
| Aggregate.ValidDataNeverFails | src/lib.rs:261-268 | accumulators built by `new`, `add_vol` and `clear` never make the aggregation fail |
| Aggregate.RoiNamesOrdered | src/lib.rs:175-177 | "GTV" < "GTV_N" < "PTV_DP" as Rust strings |
| Aggregate.IdentityOrderIsSorted | src/lib.rs:235-247 | six rows whose identities are GTV 1-2, GTV 2-3, GTV_N 1-2, GTV_N 2-3, PTV_DP 1-2, PTV_DP 2-3, in that order, are sorted |
| Aggregate.PipelineOutput | src/lib.rs:174-268 | for any input rows, `records_to_data` followed by `dataset_to_stats` succeeds with exactly six rows in the order above, which is the order the loop produced them in |
| Scenarios.MissingVolumeIsRejected | src/lib.rs:114-120 | `add_vol(1, 2, None)` leaves a new accumulator unchanged |
| Scenarios.OnlyCompleteTriplesAreKept | src/lib.rs:114-124 | `add_vol(1, 2, 3)` then `add_vol(None, 1, 1)` leaves one triple, the first |
| Scenarios.NaNPairIsDropped | src/lib.rs:57-78 | a pair whose first value is NaN is dropped: of three positions with differences 1, NaN and 2, two contribute, giving mean 1.5, variance 0.5 and count 2 |
| Scenarios.InfiniteSingleDifference | src/lib.rs:57-78 | one pair with difference +inf is kept: mean +inf, spread NaN (from `inf - inf`), count 1 |
| Scenarios.MismatchedLengthsFail | src/lib.rs:47-55 | vectors of lengths 3 and 4 give `LengthMismatch(3, 4)`, not a truncated result |
| Scenarios.GtvRowsAccumulate | src/lib.rs:174-196 | rows with GTV volumes (10, 12, 11) and (8, 9, 10) fill only the GTV accumulator, in row order |
| Scenarios.GtvRowsMoments | src/lib.rs:57-78 | for phase-1 volumes (10, 8) and phase-2 volumes (12, 9), the differencer gives mean −1.5, variance 0.5 and count 2 |
| Scenarios.GtvRowsPhase1To2 | src/lib.rs:133-145 | end to end, the GTV 1 to 2 row of those rows has start volume 9, mean difference −1.5, variance 0.5 and two pairs |

## Left out

- `read_csv` (CSV parsing and file I/O) and `src/main.rs` (argument handling, output writing) are not part of this model; rows enter as a sequence of `Record`.
- The `debug!` logging in `avg_std_dev_from_vectors` has no effect on results and is not modelled; `Differencer.CountIsFullIffAllKept` states the condition it tests.
- Differencer.AvgStdDev: the spread is returned as the variance (the square of `std_dev`). The final `sqrt` is not modelled, because Dafny's reals have no square root.
- Floating-point rounding and overflow are not modelled: finite values are exact reals. Signed zero is not distinguished.
- The `usize` count and the `i32` phase numbers are unbounded integers; the values involved never approach their limits.
- Sorting.SortStats: `Vec::sort` is stable, and stability is not stated. It cannot be observed in the pipeline, because `records_to_data` never yields two rows with the same identity: `Aggregate.PipelineOutput` gives the six distinct identities exactly.
- `records_to_data` interleaves three `add_vol` calls per row in a single loop. It is modelled as three independent folds over the rows, which is equivalent because the three accumulators share no state.
- `add_data` pushes the 1 to 2 row before the 2 to 3 row can fail. Since `dataset_to_stats` then discards the partial vector, the model returns only the error.
- The `Serialize`/`Deserialize` derivations, and with them the round trip through the output file, are not modelled (they are I/O).
