/**
 * The portfolio optimizer (`optimize_overall_calc`): scores every
 * `Num Apps`-sized combination of candidate schools, keeps the first one
 * that strictly improves the best average rank while clearing both chance
 * thresholds, then sorts the winner by rank and classifies it into tiers.
 */
module Optimize {
  import opened Schools
  import opened Combinations
  import opened RankSort
  import opened Tiers

  /** The optimization parameters, passed in rather than prompted for. */
  datatype Params = Params(chanceThreshold: real, numApps: nat, chanceMod: real, thresholdMod: real)

  /** What the source computes for one combination. */
  datatype Score = Score(average: real, chance: real, modChance: real, totalChance: real, modTotalChance: real)

  /**
   * The best-so-far record: "Best Score", "Best Chance", "Best Total Chance",
   * "Mod Best Chance", "Mod Best Total Chance" and, once something
   * qualified, "Best Schools".
   */
  datatype Best = Best(score: real, chance: real, totalChance: real, modChance: real,
                       modTotalChance: real, schools: Option<seq<School>>)

  /** The record the search starts from: every number 0, no schools. */
  const NoBest := Best(0.0, 0.0, 0.0, 0.0, 0.0, None)

  /** The optimizer's result: the best record, and the tier chances when a winner was classified. */
  datatype Outcome = Outcome(best: Best, tierChances: Option<TierChances>)

  /** The sum of the ranks of `c`, added left to right. */
  function SumRank(c: seq<School>): real {
    if c == [] then 0.0 else SumRank(c[..|c| - 1]) + c[|c| - 1].rank
  }

  /**
   * The score of a non-empty combination: its average rank, and one minus
   * each of the four products of miss factors (plain and adjusted by `mod`,
   * primary degree only and including the backup degree).
   */
  function ScoreOf(c: seq<School>, mod: real): Score
    requires |c| > 0
  {
    Score(SumRank(c) / (|c| as real),
          1.0 - FailProduct(PrimaryMiss, c),
          1.0 - FailProduct(Factor(false, mod), c),
          1.0 - FailProduct(BackupMiss, c),
          1.0 - FailProduct(Factor(true, mod), c))
  }

  /** Every combination scored, in enumeration order. */
  function ScoresOf(cs: seq<seq<School>>, mod: real): (r: seq<Score>)
    requires forall i :: 0 <= i < |cs| ==> |cs[i]| > 0
    ensures |r| == |cs| && forall i :: 0 <= i < |cs| ==> r[i] == ScoreOf(cs[i], mod)
  {
    seq(|cs|, i requires 0 <= i < |cs| => ScoreOf(cs[i], mod))
  }

  /** The source's replacement test, all three comparisons strict; the adjusted primary chance plays no part. */
  predicate Improves(sc: Score, best: Best, p: Params) {
    sc.chance > p.chanceThreshold && sc.average > best.score && sc.modTotalChance > p.thresholdMod
  }

  /** The record a combination leaves behind when it replaces the best. */
  function Record(sc: Score, c: seq<School>): Best {
    Best(sc.average, sc.chance, sc.totalChance, sc.modChance, sc.modTotalChance, Some(c))
  }

  /** The best record after the combinations `cs`, with scores `sc`, were examined in order. */
  function BestOf(cs: seq<seq<School>>, sc: seq<Score>, p: Params): Best
    requires |cs| == |sc|
  {
    if cs == [] then NoBest
    else
      var n := |cs| - 1;
      var prev := BestOf(cs[..n], sc[..n], p);
      if Improves(sc[n], prev, p) then Record(sc[n], cs[n]) else prev
  }

  /** A combination that can win at all: it clears both thresholds with a positive average. */
  ghost predicate Candidate(sc: seq<Score>, p: Params, i: int) {
    && 0 <= i < |sc|
    && sc[i].chance > p.chanceThreshold && sc[i].modTotalChance > p.thresholdMod
    && sc[i].average > 0.0
  }

  /**
   * Position `i` holds the first candidate with the largest average: no
   * candidate beats it, and every candidate before it is strictly worse.
   */
  ghost predicate FirstBest(sc: seq<Score>, p: Params, i: int) {
    && Candidate(sc, p, i)
    && (forall j :: Candidate(sc, p, j) ==> sc[j].average <= sc[i].average)
    && (forall j :: 0 <= j < i && Candidate(sc, p, j) ==> sc[j].average < sc[i].average)
  }

  /**
   * The search keeps the first combination with the largest qualifying
   * average; when no combination qualifies the record stays at its start.
   */
  lemma {:induction false} BestOfIsFirstBest(cs: seq<seq<School>>, sc: seq<Score>, p: Params)
    requires |cs| == |sc|
    ensures BestOf(cs, sc, p) == NoBest <==> forall i :: !Candidate(sc, p, i)
    ensures BestOf(cs, sc, p) != NoBest ==>
              exists i :: FirstBest(sc, p, i) && BestOf(cs, sc, p) == Record(sc[i], cs[i])
  {
    if cs != [] {
      var n := |cs| - 1;
      var cs', sc' := cs[..n], sc[..n];
      BestOfIsFirstBest(cs', sc', p);
      var prev := BestOf(cs', sc', p);
      if prev == NoBest {
        if Improves(sc[n], prev, p) {
          NewFirstBest(sc, sc', p, 0.0);
        } else {
          forall j ensures !Candidate(sc, p, j) {
            if 0 <= j < n {
              CandidatePrefix(sc, p, n, j);
            }
          }
        }
      } else {
        var i :| FirstBest(sc', p, i) && prev == Record(sc'[i], cs'[i]);
        CandidatePrefix(sc, p, n, i);
        if Improves(sc[n], prev, p) {
          NewFirstBest(sc, sc', p, sc'[i].average);
        } else {
          KeptFirstBest(sc, sc', p, i);
          assert cs'[i] == cs[i];
        }
      }
    }
  }

  /**
   * The last score becomes the first best when it is a candidate above
   * `bound` and no earlier candidate exceeds `bound`.
   */
  lemma {:induction false} NewFirstBest(sc: seq<Score>, prefix: seq<Score>, p: Params, bound: real)
    requires |sc| > 0 && prefix == sc[..|sc| - 1]
    requires Candidate(sc, p, |sc| - 1) && sc[|sc| - 1].average > bound
    requires forall j :: Candidate(prefix, p, j) ==> prefix[j].average <= bound
    ensures FirstBest(sc, p, |sc| - 1)
  {
    var n := |sc| - 1;
    forall j | Candidate(sc, p, j)
      ensures sc[j].average <= sc[n].average
      ensures j < n ==> sc[j].average < sc[n].average
    {
      if j < n {
        CandidatePrefix(sc, p, n, j);
      }
    }
  }

  /**
   * The first best of all but the last score stays the first best when the
   * last score is not a candidate above it.
   */
  lemma {:induction false} KeptFirstBest(sc: seq<Score>, prefix: seq<Score>, p: Params, i: int)
    requires |sc| > 0 && prefix == sc[..|sc| - 1] && FirstBest(prefix, p, i)
    requires !(Candidate(sc, p, |sc| - 1) && sc[|sc| - 1].average > prefix[i].average)
    ensures FirstBest(sc, p, i)
  {
    var n := |sc| - 1;
    CandidatePrefix(sc, p, n, i);
    forall j | Candidate(sc, p, j)
      ensures sc[j].average <= sc[i].average
      ensures j < i ==> sc[j].average < sc[i].average
    {
      if j < n {
        CandidatePrefix(sc, p, n, j);
      }
    }
  }

  /** One more examined combination: the record it leaves behind. */
  lemma {:induction false} BestOfStep(cs: seq<seq<School>>, sc: seq<Score>, p: Params, k: nat)
    requires k < |cs| == |sc|
    ensures var prev := BestOf(cs[..k], sc[..k], p);
            BestOf(cs[..k + 1], sc[..k + 1], p) == if Improves(sc[k], prev, p) then Record(sc[k], cs[k]) else prev
  {
    assert cs[..k + 1][..k] == cs[..k] && sc[..k + 1][..k] == sc[..k];
  }

  /** Being a candidate does not depend on the scores after it. */
  lemma {:induction false} CandidatePrefix(sc: seq<Score>, p: Params, n: nat, j: int)
    requires 0 <= j < n <= |sc|
    ensures Candidate(sc[..n], p, j) <==> Candidate(sc, p, j)
    ensures sc[..n][j] == sc[j]
  {
  }

  /** There is only one first best. */
  lemma {:induction false} FirstBestUnique(sc: seq<Score>, p: Params, i: int, j: int)
    requires FirstBest(sc, p, i) && FirstBest(sc, p, j)
    ensures i == j
  {
  }

  /** The best record after searching all `Num Apps`-sized combinations of `schools`. */
  function Search(schools: seq<School>, p: Params): Best
    requires p.numApps >= 1
  {
    var cs := Combos(schools, p.numApps);
    BestOf(cs, ScoresOf(cs, p.chanceMod), p)
  }

  /**
   * `optimize_overall_calc` as a value: the search, then, when the best
   * score is positive, the winner sorted by rank and classified into tiers.
   */
  function OptimizeSpec(schools: seq<School>, p: Params): Outcome
    requires p.numApps >= 1
  {
    var cs := Combos(schools, p.numApps);
    var best := Search(schools, p);
    BestOfFrom(cs, ScoresOf(cs, p.chanceMod), p);
    if best.score > 0.0 then
      var sorted := SortByRankDesc(best.schools.value);
      Outcome(best.(schools := Some(Tiered(sorted))), Some(TierChancesOf(sorted)))
    else Outcome(best, None)
  }

  /** Every enumerated combination holds `k` schools. */
  lemma {:induction false} CombosSize(schools: seq<School>, k: nat, i: nat)
    requires i < |Combos(schools, k)|
    ensures |Combos(schools, k)[i]| == k
  {
    assert IsCombination(Choose(0, |schools|, k)[i], 0, |schools|, k);
  }

  /** A combination of schools with chances has chances too. */
  lemma {:induction false} CombosHaveChances(schools: seq<School>, k: nat, i: nat)
    requires AllHaveChances(schools) && i < |Combos(schools, k)|
    ensures AllHaveChances(Combos(schools, k)[i]) && |Combos(schools, k)[i]| == k
  {
    var idx := Choose(0, |schools|, k)[i];
    assert IsCombination(idx, 0, |schools|, k);
  }

  /** The best record names one of the examined combinations, or none at all. */
  lemma {:induction false} BestOfFrom(cs: seq<seq<School>>, sc: seq<Score>, p: Params)
    requires |cs| == |sc|
    ensures BestOf(cs, sc, p).schools.Some? ==> BestOf(cs, sc, p).schools.value in cs
    ensures BestOf(cs, sc, p).schools.None? ==> BestOf(cs, sc, p) == NoBest
    ensures BestOf(cs, sc, p).schools.Some? ==> BestOf(cs, sc, p).score > 0.0
  {
    BestOfIsFirstBest(cs, sc, p);
  }

  /** When no combination qualifies, every number stays 0, there are no best schools, and nothing is tiered. */
  lemma {:induction false} Infeasible(schools: seq<School>, p: Params)
    requires p.numApps >= 1
    requires forall i :: !Candidate(ScoresOf(Combos(schools, p.numApps), p.chanceMod), p, i)
    ensures OptimizeSpec(schools, p) == Outcome(NoBest, None)
  {
    var cs := Combos(schools, p.numApps);
    BestOfIsFirstBest(cs, ScoresOf(cs, p.chanceMod), p);
  }

  /**
   * When some combination qualifies, the first one with the largest average
   * wins: its scores become the record, and its schools, sorted by rank and
   * classified, become "Best Schools".
   */
  lemma {:induction false} Feasible(schools: seq<School>, p: Params)
    requires p.numApps >= 1
    requires exists i :: Candidate(ScoresOf(Combos(schools, p.numApps), p.chanceMod), p, i)
    ensures var cs := Combos(schools, p.numApps);
            var sc := ScoresOf(cs, p.chanceMod);
            exists i :: && FirstBest(sc, p, i)
                        && OptimizeSpec(schools, p).best ==
                             Record(sc[i], Tiered(SortByRankDesc(cs[i])))
                        && OptimizeSpec(schools, p).tierChances ==
                             Some(TierChancesOf(SortByRankDesc(cs[i])))
  {
    var cs := Combos(schools, p.numApps);
    var sc := ScoresOf(cs, p.chanceMod);
    var best := Search(schools, p);
    assert best == BestOf(cs, sc, p);
    BestOfIsFirstBest(cs, sc, p);
    var i :| FirstBest(sc, p, i) && best == Record(sc[i], cs[i]);
    assert best.score > 0.0 && best.schools == Some(cs[i]);
    var sorted := SortByRankDesc(cs[i]);
    assert OptimizeSpec(schools, p) == Outcome(best.(schools := Some(Tiered(sorted))), Some(TierChancesOf(sorted)));
    assert best.(schools := Some(Tiered(sorted))) == Record(sc[i], Tiered(sorted));
  }

  /**
   * A feasible result records the winner's own score, and its "Best
   * Schools" are the winner, of `Num Apps` schools, sorted and classified.
   */
  lemma {:induction false} Winner(schools: seq<School>, p: Params)
    requires p.numApps >= 1
    requires Search(schools, p).score > 0.0
    ensures var best := Search(schools, p);
            && best.schools.Some?
            && |best.schools.value| == p.numApps
            && best == Record(ScoreOf(best.schools.value, p.chanceMod), best.schools.value)
            && OptimizeSpec(schools, p).best.schools == Some(Tiered(SortByRankDesc(best.schools.value)))
  {
    var cs := Combos(schools, p.numApps);
    var sc := ScoresOf(cs, p.chanceMod);
    BestOfIsFirstBest(cs, sc, p);
    var i :| FirstBest(sc, p, i) && Search(schools, p) == Record(sc[i], cs[i]);
    CombosSize(schools, p.numApps, i);
  }

  /**
   * The classified winner is its combination reordered by non-increasing
   * rank, and its last school's cumulative chances are the combination's
   * chance and total chance.
   */
  lemma {:induction false} WinnerCumulative(c: seq<School>, mod: real)
    requires |c| > 0
    ensures var sorted := SortByRankDesc(c);
            var r := Tiered(sorted);
            && SortedDesc(sorted) && multiset(sorted) == multiset(c)
            && |r| == |c|
            && r[|r| - 1].cumulative == Some(ScoreOf(c, mod).chance)
            && r[|r| - 1].cumulativeBackup == Some(ScoreOf(c, mod).totalChance)
  {
    var sorted := SortByRankDesc(c);
    SortSorted(c);
    SortPerm(c);
    CumulativeLast(sorted);
    assert FailProduct(PrimaryMiss, sorted) == FailProduct(PrimaryMiss, c) by {
      SortProduct(MissOf(PrimaryMiss), c);
    }
    assert FailProduct(BackupMiss, sorted) == FailProduct(BackupMiss, c) by {
      SortProduct(MissOf(BackupMiss), c);
    }
    assert ScoreOf(c, mod).chance == 1.0 - FailProduct(PrimaryMiss, c);
    assert ScoreOf(c, mod).totalChance == 1.0 - FailProduct(BackupMiss, c);
  }

  /** With chances in [0, 1], a combination's chances are probabilities and counting the backup never lowers them. */
  lemma {:induction false} ScoreBounds(c: seq<School>, mod: real)
    requires |c| > 0 && AllValidChances(c)
    ensures 0.0 <= ScoreOf(c, mod).chance <= ScoreOf(c, mod).totalChance <= 1.0
  {
    FailProductBounds(c);
  }

  /** With the modifier 1 the adjusted chances are the plain ones. */
  lemma {:induction false} UnitModifier(c: seq<School>)
    requires |c| > 0
    ensures ScoreOf(c, 1.0).modChance == ScoreOf(c, 1.0).chance
    ensures ScoreOf(c, 1.0).modTotalChance == ScoreOf(c, 1.0).totalChance
  {
  }

  /**
   * Scores one combination with the source's inner loop: the rank sum and
   * the four running products, then the average and the four chances.
   */
  method ScoreCombination(combo: seq<School>, mod: real) returns (sc: Score)
    requires |combo| > 0 && AllHaveChances(combo)
    ensures sc == ScoreOf(combo, mod)
  {
    var runningSumRank := 0.0;
    var runningChance, runningModChance := 1.0, 1.0;
    var runningChanceBackup, runningModChanceBackup := 1.0, 1.0;
    var i := 0;
    while i < |combo|
      invariant 0 <= i <= |combo|
      invariant runningSumRank == SumRank(combo[0..i])
      invariant runningChance == FailProduct(PrimaryMiss, combo[0..i])
      invariant runningModChance == FailProduct(Factor(false, mod), combo[0..i])
      invariant runningChanceBackup == FailProduct(BackupMiss, combo[0..i])
      invariant runningModChanceBackup == FailProduct(Factor(true, mod), combo[0..i])
    {
      var school := combo[i];
      assert combo[0..i + 1][..i] == combo[0..i];
      runningSumRank := runningSumRank + school.rank;
      var phdChance := if school.phd then school.phdChance.value else 0.0;
      var msChance := if school.ms then school.msChance.value else 0.0;
      var miss, modMiss;
      if school.phd {
        miss, modMiss := 1.0 - phdChance, 1.0 - phdChance * mod;
      } else {
        miss, modMiss := 1.0 - msChance, 1.0 - msChance * mod;
      }
      var backupMiss := 1.0 - (phdChance + (1.0 - phdChance) * msChance);
      var modBackupMiss := 1.0 - (phdChance + (1.0 - phdChance) * msChance * mod);
      assert && miss == Miss(PrimaryMiss, combo[i]) && backupMiss == Miss(BackupMiss, combo[i])
             && modMiss == Miss(Factor(false, mod), combo[i])
             && modBackupMiss == Miss(Factor(true, mod), combo[i]) by {
        SourceMisses(school, phdChance, msChance);
        SourceModMisses(school, phdChance, msChance, mod);
      }
      assert runningChance * miss == FailProduct(PrimaryMiss, combo[0..i + 1]) by {
        ExtendProduct(PrimaryMiss, combo, 0, i, runningChance, miss);
      }
      assert runningModChance * modMiss == FailProduct(Factor(false, mod), combo[0..i + 1]) by {
        ExtendProduct(Factor(false, mod), combo, 0, i, runningModChance, modMiss);
      }
      assert runningChanceBackup * backupMiss == FailProduct(BackupMiss, combo[0..i + 1]) by {
        ExtendProduct(BackupMiss, combo, 0, i, runningChanceBackup, backupMiss);
      }
      assert runningModChanceBackup * modBackupMiss == FailProduct(Factor(true, mod), combo[0..i + 1]) by {
        ExtendProduct(Factor(true, mod), combo, 0, i, runningModChanceBackup, modBackupMiss);
      }
      runningChance := runningChance * miss;
      runningModChance := runningModChance * modMiss;
      runningChanceBackup := runningChanceBackup * backupMiss;
      runningModChanceBackup := runningModChanceBackup * modBackupMiss;
      i := i + 1;
    }
    assert combo[0..|combo|] == combo;
    sc := Score(runningSumRank / (|combo| as real), 1.0 - runningChance, 1.0 - runningModChance,
                1.0 - runningChanceBackup, 1.0 - runningModChanceBackup);
  }

  /**
   * Steps 2a-2c of `optimize_overall_calc`: scores each combination in
   * turn and replaces the best record whenever the combination improves it.
   */
  method SearchCombinations(combos: seq<seq<School>>, p: Params) returns (best: Best)
    requires forall i :: 0 <= i < |combos| ==> |combos[i]| > 0 && AllHaveChances(combos[i])
    ensures best == BestOf(combos, ScoresOf(combos, p.chanceMod), p)
  {
    ghost var scores := ScoresOf(combos, p.chanceMod);
    best := NoBest;
    var k := 0;
    while k < |combos|
      invariant 0 <= k <= |combos|
      invariant best == BestOf(combos[..k], scores[..k], p)
    {
      var sc := ScoreCombination(combos[k], p.chanceMod);
      BestOfStep(combos, scores, p, k);
      if sc.chance > p.chanceThreshold && sc.average > best.score && sc.modTotalChance > p.thresholdMod {
        best := Best(sc.average, sc.chance, sc.totalChance, sc.modChance, sc.modTotalChance, Some(combos[k]));
      }
      k := k + 1;
    }
    assert combos[..k] == combos && scores[..k] == scores;
  }

  /** A fresh array holding `s`. */
  method ToArray(s: seq<School>) returns (a: array<School>)
    ensures fresh(a) && a[..] == s
  {
    a := new School[|s|](j requires 0 <= j < |s| => s[j]);
    assert forall j :: 0 <= j < |s| ==> a[j] == s[j];
  }

  /**
   * `optimize_overall_calc` with the parameters passed in: the search over
   * all combinations, then sorting and tier classification of the winner.
   */
  method OptimizeOverall(schools: seq<School>, p: Params) returns (r: Outcome)
    requires p.numApps >= 1 && AllHaveChances(schools)
    ensures r == OptimizeSpec(schools, p)
  {
    var combos := Combos(schools, p.numApps);
    forall k | 0 <= k < |combos|
      ensures |combos[k]| > 0 && AllHaveChances(combos[k])
    {
      CombosHaveChances(schools, p.numApps, k);
    }
    var best := SearchCombinations(combos, p);
    BestOfFrom(combos, ScoresOf(combos, p.chanceMod), p);
    if best.score > 0.0 {
      var sorted := SortByRankDesc(best.schools.value);
      SortKeepsChances(best.schools.value);
      var a := ToArray(sorted);
      var tierChances := TierCalc(a);
      r := Outcome(best.(schools := Some(a[..])), Some(tierChances));
    } else {
      r := Outcome(best, None);
    }
  }
}
