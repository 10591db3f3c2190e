# Graduate-school portfolio optimizer and chance estimator, modelled in Dafny

The program helps a student pick the graduate schools to apply to. It has two
engines, and this project models their deterministic cores.

- **The chance estimator** (`program/chance.py`) works out a chance of admission for
  each school and degree from the statistics of past applicants. This project models:
  - the acceptance rate and the clamped test rate;
  - the six z-scores of the student's profile, each with a fixed fallback when the
    deviation is zero;
  - one Monte Carlo trial: the weighted z-score and the choice of spread above or
    below the sample z-score;
  - the average of the 1000 trials;
  - the write-back of the chance into the matching school records;
  - the SQL `WHERE` fragments the query is built from.
- **The portfolio optimizer** (`program/optimize.py`) finds the best set of schools to
  apply to. It:
  - scores every `Num Apps`-sized combination of candidate schools, in the order
    `itertools.combinations` produces them;
  - keeps the first combination whose average rank strictly beats the best so far,
    provided it clears both chance thresholds;
  - sorts the winner by rank, highest first;
  - splits it into Top, Mid and Bottom tiers and writes each school's cumulative
    chances.

The files:

- `schools.dfy` (module `Schools`) holds:
  - the school record, with an `Option` for each key a later stage writes;
  - the per-school miss factors, meaning the probability of not being admitted;
  - their products, and the bounds on them.
- `combinations.dfy` (module `Combinations`) enumerates selections of positions in
  `itertools.combinations` order. It proves that the enumeration is sound, complete,
  in strictly increasing lexicographic order, and `C(n, k)` long.
- `rank_sort.dfy` (module `RankSort`) models `sorted(..., key=Rank, reverse=True)` as a
  stable insertion sort. It proves that the result is sorted, is a permutation of the
  input, and is stable.
- `tiers.dfy` (module `Tiers`) models `optimize_tier_calc`. The method keeps the
  source's in-place update of the school list, on an `array`, and is proved against
  the value-level `Tiered` and `TierChancesOf`.
- `optimize.dfy` (module `Optimize`) models `optimize_overall_calc`:
  - the inner scoring loop and the search loop as methods, each proved against a
    function;
  - which combination wins, including the tie-break;
  - the infeasible case;
  - the classified winner.
- `chance.dfy` (module `Chance`) models the chance estimator's deterministic skeleton.

Modelling choices:

- Numbers are Dafny `real`, not IEEE floats.
- The `"Yes"`/`"No"` flags are booleans.
- The optimization parameters are passed in.
- The normal quantile and distribution functions are function parameters.
- The random draws are a sequence of `Draw` values.
- The spread below the sample z-score is a parameter.

## Model

| member | source | states |
|---|---|---|
| Combinations.ChooseSound | program/optimize.py:154 | every enumerated selection is a strictly increasing list of k positions within the list |
| Combinations.ChooseComplete | program/optimize.py:154 | every strictly increasing list of k positions within the list is enumerated |
| Combinations.ChooseSorted | program/optimize.py:154 | the selections come in strictly increasing lexicographic order of positions, so none repeats (the order `itertools.combinations` emits) |
| Combinations.ChooseCount | program/optimize.py:154 | there are exactly C(n, k) selections |
| Combinations.Combos | program/optimize.py:154 | combination i is the schools at the positions of selection i, in list order |
| Optimize.CombosSize | program/optimize.py:154 | every candidate combination holds exactly `Num Apps` schools |
| Schools.MissFormulas | program/optimize.py:168-187 | the four miss factors are 1 - primary·mod, 1 - (phd + (1 - phd)·ms·mod), and the same two with mod 1, where primary is the PhD chance when the PhD is sought and otherwise the MS chance |
| Schools.SourceMisses | program/optimize.py:168-185 | the source's per-school branches (a chance is 0 when its degree is not sought) compute exactly the primary and the backup-inclusive miss factor |
| Schools.SourceModMisses | program/optimize.py:168-187 | the same for the factors adjusted by `Chance Mod`; only the MS term of the backup-inclusive factor is scaled |
| Schools.MissBounds | program/optimize.py:185 | the backup-inclusive factor equals (1 - phd)(1 - ms), and with chances in [0, 1] it lies in [0, primary miss], with primary miss at most 1 |
| Schools.FailProductBounds | program/optimize.py:178-191 | with every chance in [0, 1], 0 <= backup-inclusive product <= primary product <= 1 |
| Schools.RunningIsPrefix | program/optimize.py:296-299 | a product multiplied in position by position equals the product over the prefix passed so far |
| Schools.RunningMonotone | program/optimize.py:296-299 | with every factor in [0, 1], a running product stays in [0, 1] and never grows |
| Optimize.ScoreBounds | program/optimize.py:189-191 | with chances in [0, 1], 0 <= chance <= total_chance <= 1 |
| Optimize.UnitModifier | program/optimize.py:180-192 | with `Chance Mod` 1 the adjusted chances equal the plain ones |
| Optimize.ScoreCombination | program/optimize.py:158-195 | the inner loop's rank sum and four running products give the average rank and one minus each product of miss factors over the combination |
| Optimize.SearchCombinations | program/optimize.py:157-205 | the outer loop leaves the record that the strict three-way replacement test, folded over the combinations in order, yields |
| Optimize.BestOfIsFirstBest | program/optimize.py:198-205 | the record stays at its all-zero start exactly when no combination clears both thresholds with a positive average; otherwise it is the first such combination with the largest average |
| Optimize.FirstBestUnique | program/optimize.py:198-205 | that first best combination is unique, so ties go to the earliest in enumeration order |
| Optimize.BestOfFrom | program/optimize.py:147-205 | a recorded best names one of the examined combinations with a positive score; without one the record is the all-zero start |
| Optimize.Infeasible | program/optimize.py:147-211 | when nothing qualifies, every best number stays 0, there is no `Best Schools` and nothing is tiered |
| Optimize.Feasible | program/optimize.py:198-211 | when something qualifies, the first best combination's scores become the record, its schools sorted by rank and classified become `Best Schools`, and its tier chances are reported |
| Optimize.Winner | program/optimize.py:198-211 | a positive best score comes with `Best Schools` of `Num Apps` schools whose own scores are the recorded ones |
| Optimize.WinnerCumulative | program/optimize.py:207-211 | the classified winner is its combination reordered by non-increasing rank, and its last school's cumulative chances are the recorded chance and total chance |
| Optimize.OptimizeOverall | program/optimize.py:131-213 | the whole of `optimize_overall_calc`, with parameters passed in: the search, then for a positive best score the stable descending sort by rank (a new list) and the in-place tier classification, equal to the value-level specification |
| RankSort.SortSorted | program/optimize.py:208-209 | the sorted winner has ranks in non-increasing order |
| RankSort.SortPerm | program/optimize.py:208-209 | the sorted winner is a permutation of the combination |
| RankSort.SortStable | program/optimize.py:208-209 | schools of equal rank keep their relative order |
| RankSort.InsertSorted | program/optimize.py:208-209 | inserting a school into a list sorted by descending rank keeps it sorted |
| RankSort.InsertPerm | program/optimize.py:208-209 | inserting adds exactly that school |
| RankSort.InsertStable | program/optimize.py:208-209 | inserting moves the school only past schools of strictly higher rank |
| RankSort.SortProduct | program/optimize.py:207-211 | sorting does not change any product of miss factors, so the sorted winner keeps its chances |
| RankSort.SortKeepsChances | program/optimize.py:207-211 | the sorted winner still has every offered chance, and in [0, 1] if they were |
| Tiers.TierRanges | program/optimize.py:233-294 | position i is Top iff i < n div 3, Mid iff it lies in the next run (one longer when n % 3 == 2), Bottom otherwise; the three runs cover the list in order |
| Tiers.TierSizes | program/optimize.py:233-294 | the tiers partition the list in order, with sizes n div 3, n div 3 plus 1 when n % 3 == 2, and the rest |
| Tiers.FourSchoolTiers | program/optimize.py:47-85 | four schools split 1-1-2, as in the printed example |
| Tiers.TierCalc | program/optimize.py:216-305 | classification in place: the list becomes `Tiered` of the old list and the tier chances are those of the old list |
| Tiers.ClassifyStep | program/optimize.py:234-299 | one loop pass writes the school as `Tiered` has it and advances every running product by that school |
| Tiers.ScannedStart | program/optimize.py:227-231 | all five running products start at 1, which is the empty-prefix state |
| Tiers.StepTiers | program/optimize.py:246-292 | a school is multiplied into its own tier's running product only |
| Tiers.RunningProductSlice | program/optimize.py:246-292 | a tier's running product is the product over the part of that tier already passed |
| Tiers.RunningTier | program/optimize.py:301-303 | at the end a tier's running product is the product over that tier's schools only |
| Tiers.ScannedEnd | program/optimize.py:301-303 | each tier chance is 1 minus the product over that tier's schools |
| Tiers.TieredFields | program/optimize.py:253-299 | classification writes only `Tier`, `Cumulative Chance` and `Cumulative Chance incl. Backup`, and the tier is the one the position decides |
| Tiers.TieredCumulative | program/optimize.py:296-299 | the cumulative chances at i are 1 minus the primary and the backup-inclusive products over positions 0..i, with no reset at tier boundaries |
| Tiers.CumulativeMonotone | program/optimize.py:296-299 | with chances in [0, 1] the cumulative chance lies in [0, 1] and never decreases down the list |
| Tiers.CumulativeBackupAbove | program/optimize.py:296-299 | the backup-inclusive cumulative chance is at least the plain one and at most 1 |
| Tiers.CumulativeLast | program/optimize.py:296-299 | the last school's cumulative chances are the chances of the whole list |
| Tiers.TieredIdempotent | program/optimize.py:216-305 | classifying an already classified list changes nothing |
| Chance.AcceptRateMeaning | program/chance.py:151-153 | accept rate times applied is accepted; the rate lies in [0, 1], is 1 iff nobody was rejected, and is 0 iff nobody was accepted |
| Chance.TestRateBounds | program/chance.py:156-161 | the test rate lies strictly in (0, 1) and equals the accept rate when both counts are positive |
| Chance.QuotientMeaning | program/chance.py:164-188 | with a non-zero divisor a z-score times its divisor (twice for the double division) gives back the difference; a zero divisor gives the fallback |
| Chance.ZScoresMeaning | program/chance.py:164-188 | each of the six z-scores is its difference over its deviation (Quant and AW over the deviation twice), or 0.1, 0.1, 2.0, 2.0, 5.0 or 0.5 when that deviation is zero |
| Chance.WeightSumRange | program/chance.py:218-231 | with the drawn weight ranges, the sum of the eight weight values lies in [65.5, 127.5] |
| Chance.UniformSum | program/chance.py:227-229 | nine equal z-values c give a weighted sum of c times all nine weights, Other GPA's included |
| Chance.WeightedZScaled | program/chance.py:227-231 | the as-written z-score times the eight weights equals the weighted average times the nine weights |
| Chance.WeightedZOvershoots | program/chance.py:227-231 | the as-written z-score lies strictly farther from 0 than the weighted average, whenever that average is not 0 |
| Chance.WeightedZExample | program/chance.py:227-231 | all nine z-values 1 with weights (15, 15, 15, 10, 1, 1, 1) give 73/65.5, not 1 |
| Chance.WeightedAverageUniform | program/chance.py:227-231 | the corrected weighted average of nine equal z-values is that value |
| Chance.WeightedAverageMonotone | program/chance.py:227-231 | raising any z-value never lowers the corrected weighted average |
| Chance.SpreadPositive | program/chance.py:207-236 | with a sample z-score below 3 and a positive lower spread, the above spread (3 - sample)/3 is positive, so every trial's CDF is taken with a positive spread on whichever side it falls |
| Chance.TrialZExample | program/chance.py:227-231 | on one trial, all z-values 1 with weights (15, 15, 15, 10, 1, 1, 1), the source's divisor gives 73/65.5 and the nine-weight divisor gives 1 |
| Chance.RunTrial | program/chance.py:213-236 | one trial takes the three percentiles through the quantile function, divides the weighted sum by the chosen divisor (`EightValues` is the source's `sum(weights.values())`, `NineWeights` the corrected average), and evaluates the CDF with the above spread exactly when that z-score is strictly above the sample z-score |
| Chance.ChanceSumRange | program/chance.py:210-236 | under either divisor, when the CDF's values lie in [0, 1] for positive spreads and both spreads are positive, the sum over k trials lies in [0, k] |
| Chance.EstimateRange | program/chance.py:238 | under either divisor, the mean over the 1000 trials lies in [0, 1] |
| Chance.MonteCarlo | program/chance.py:207-238 | the loop's running sum is the left-to-right sum of the trial chances under the chosen divisor, and "Chance" is that sum over 1000, times 100 |
| Chance.EstimateChance | program/chance.py:151-238 | the estimate for one school and degree is the Monte Carlo percentage at the sample z-score of 1 minus the clamped test rate, with the six z-scores of the profile and the chosen divisor (`EightValues` gives the source's estimate) |
| Chance.WriteBackEffect | program/chance.py:240-242 | a school is changed only if its name is the row's school and it offers the row's degree, and then only that degree's chance, which becomes the given value |
| Chance.WriteBackIdempotent | program/chance.py:240-242 | writing the same row twice equals writing it once |
| Chance.WriteBackProvides | program/chance.py:240-242 | after the write-back every matching school reads the chance for that degree |
| Chance.WriteChance | program/chance.py:240-242 | the loop over the records, in place, yields the write-back of chance/100 |
| Chance.FragmentIsClauses | program/chance.py:47-51 | the fragment is one `School LIKE '<name>' OR ` clause per school offering the degree, in list order |
| Chance.FragmentStep | program/chance.py:47-51 | one loop pass appends a school's clause exactly when it offers the degree |
| Chance.ClausesJoin | program/chance.py:58-59 | dropping the final three characters leaves the conditions joined by " OR " |
| Chance.QueryFragment | program/chance.py:44-59 | the finished fragment is the offering schools' conditions joined by " OR ", or the single `No school was selected` condition when none offers the degree, so there is one condition per offering school, or one |
| Chance.BuildFragments | program/chance.py:44-59 | the loop that builds the PhD and MS fragments yields the finished fragments for each degree |

## Left out

- Database access is not part of this model: the cursor, the SQL query text, its aggregate semantics and `LIKE` matching are foreign I/O. The statistics row is a `SchoolStats` value, and the query's guarantee that accepted plus rejected is positive is a precondition.
- SQL `NULL` aggregates are not modelled. They would raise `TypeError` in the source; the model takes numbers.
- The binomial bounds and the high and low z-scores (steps 4 and 5, `program/chance.py:190-202`), and the standard deviation of step 6, are floating-point library numerics. The spread below the sample z-score is passed in as `below`.
- The normal quantile and distribution functions are function parameters. The range lemmas assume only that the CDF's values lie in [0, 1] when the spread is positive.
- Chance.ChanceSumRange: requires a sample z-score below 3 and a positive lower spread, so that both spreads are positive. Otherwise the spread passed to the CDF is not a standard deviation, and the source's CDF value is not a probability.
- Chance.EstimateRange: the same requirement as `Chance.ChanceSumRange`, for the same reason.
- The random draws are passed in as a sequence of 1000 `Draw` values. Their percentiles are uninterpreted, and their weights are constrained to the drawn ranges.
- Printing and rounding (`chance_print`, `optimize_print`, `user_data_print`) are text formatting.
- Interactive input is not part of this model: `optimize_input`, `program/helper.py`, `program/user_data_io.py` and `program/school_data_io.py`. The parameters arrive as a `Params` value.
- The driver loop in `program/main.py` and the scraper in `parse/Scrape.py` are not part of this model.
- Bit-exact IEEE floating point is not modelled. All arithmetic is on `real`, and no claim is made about agreement with Python's rounding.
- Aliasing is not modelled. In the source, `Best Schools` holds the same dictionaries as the candidate list, so the tier classifier's writes are visible through both. Here the winner is copied into a fresh array before it is classified in place.
- Optimize.OptimizeOverall: requires `Num Apps` of at least 1 (the source divides by the combination's length) and every offered chance to be present (the source raises `KeyError` otherwise).
- The write-back runs over a separate array of records (`Chance.WriteChance`). The estimate for one row (`Chance.EstimateChance`) returns the percentage that is written.
- A chance key that is read but missing raises `KeyError` in the source. The model makes its presence a precondition (`HasChances`).
- Python's `itertools.combinations` is modelled by its documented output (selections of positions in lexicographic order), not by its iterator implementation.
- `sorted` is modelled by a stable insertion sort: same output, different algorithm.

## Findings

| source | as written | input that shows it | evidently intended | confidence | as-written member | corrected member |
|---|---|---|---|---|---|---|
| program/chance.py:231 | `z_score_instance = sum_instance / sum(weights.values())` divides nine weighted terms by the eight values of the weights dictionary: GPA's 7.5 is counted once, though the GPA weight is applied to both GPA and Other GPA | all nine z-values 1 with weights LOR 15, SOP 15, Research 15, Quant 10, Verbal 1, Combined 1, AW 1 gives 73/65.5 (about 1.11) instead of 1 | the weighted average z-score that the docstring at program/chance.py:120-137 describes, whose weights list Other GPA 7.5 separately: divide by all nine weights (`Chance.TotalWeight`) | not executed; high (the docstring names both the average and the nine weights) | Chance.WeightedZ, Chance.WeightedZExample, Chance.WeightedZOvershoots, Chance.WeightedZScaled | Chance.WeightedAverageZ, Chance.WeightedAverageUniform, Chance.WeightedAverageMonotone |

The trials take the divisor as a parameter (`Chance.Divisor`): `Chance.TrialChance`, `Chance.RunTrial`, `Chance.MonteCarlo` and `Chance.EstimateChance` model the source's estimate with `EightValues` and the corrected one with `NineWeights`. The range results hold for both. `Chance.TrialZExample` shows both on the same trial. `Chance.WeightedZScaled` and `Chance.WeightedZOvershoots` state exactly how far the two differ: by the factor nine weights over eight, and always away from 0.
