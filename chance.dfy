/**
 * The deterministic skeleton of the acceptance-chance estimator
 * (`chance_calc`, `chance_query`): the acceptance rate and its clamped test
 * rate, the six z-scores with their fallbacks, the per-trial weighted
 * z-score and spread choice, the Monte Carlo average, the write-back of a
 * degree chance into the school records, and the SQL `WHERE` fragments.
 * Quantile and distribution functions and the random draws are parameters.
 */
module Chance {
  import opened Schools

  /** One row of the grouped query: a school and degree with its sample statistics. */
  datatype SchoolStats = SchoolStats(
    school: string,
    degree: Degree,
    accepted: nat,
    rejected: nat,
    gpa: real, gpaDev: real,
    verbal: real, verbalDev: real,
    quant: real, quantDev: real,
    combined: real, combinedDev: real,
    aw: real, awDev: real)

  /** The numeric part of the student profile. */
  datatype Profile = Profile(gpa: real, otherGpa: real, verbal: real, quant: real, aw: real)

  // ---------------------------------------------------------------------
  // Steps 1 and 2: acceptance rate and test rate
  // ---------------------------------------------------------------------

  /** "Accept Rate": accepted over accepted plus rejected; the query only returns rows where that sum is positive. */
  function AcceptRate(accepted: nat, rejected: nat): real
    requires accepted + rejected > 0
  {
    (accepted as real) / ((accepted as real) + (rejected as real))
  }

  /** "Applied": accepted plus rejected. */
  function Applied(accepted: nat, rejected: nat): real {
    (accepted + rejected) as real
  }

  /** The acceptance rate is the accepted share of the applications, 1 exactly when nobody was rejected, 0 exactly when nobody was accepted. */
  lemma {:induction false} AcceptRateMeaning(accepted: nat, rejected: nat)
    requires accepted + rejected > 0
    ensures AcceptRate(accepted, rejected) * Applied(accepted, rejected) == accepted as real
    ensures 0.0 <= AcceptRate(accepted, rejected) <= 1.0
    ensures AcceptRate(accepted, rejected) == 1.0 <==> rejected == 0
    ensures AcceptRate(accepted, rejected) == 0.0 <==> accepted == 0
  {
    var a, n := accepted as real, (accepted + rejected) as real;
    var r := AcceptRate(accepted, rejected);
    assert r * n == a;
    if rejected != 0 {
      assert a < n;
      assert r * n < 1.0 * n;
    }
    if accepted != 0 {
      assert r > 0.0;
    }
  }

  /** The rate the binomial bounds use: 1 becomes 0.99, 0 becomes 0.01, anything else is kept. */
  function TestAcceptRate(rate: real): real {
    if rate == 1.0 then 0.99
    else if rate == 0.0 then 0.01
    else rate
  }

  /**
   * With a real sample the test rate lies strictly between 0 and 1 and
   * equals the acceptance rate whenever some were accepted and some
   * rejected; the reported rate itself is never clamped.
   */
  lemma {:induction false} TestRateBounds(accepted: nat, rejected: nat)
    requires accepted + rejected > 0
    ensures 0.0 < TestAcceptRate(AcceptRate(accepted, rejected)) < 1.0
    ensures accepted > 0 && rejected > 0 ==>
              TestAcceptRate(AcceptRate(accepted, rejected)) == AcceptRate(accepted, rejected)
  {
    AcceptRateMeaning(accepted, rejected);
  }

  // ---------------------------------------------------------------------
  // Step 3: z-scores
  // ---------------------------------------------------------------------

  /** The six z-scores of the profile against a school's sample. */
  datatype ZScores = ZScores(gpa: real, otherGpa: real, verbal: real, quant: real, combined: real, aw: real)

  /** `num / dev`, or `fallback` where the division raises ZeroDivisionError. */
  function Quotient(num: real, dev: real, fallback: real): real {
    if dev == 0.0 then fallback else num / dev
  }

  /** `num / dev / dev`, or `fallback` where the division raises ZeroDivisionError. */
  function Quotient2(num: real, dev: real, fallback: real): real {
    if dev == 0.0 then fallback else num / dev / dev
  }

  const GpaFallback := 0.1
  const OtherGpaFallback := 0.1
  const VerbalFallback := 2.0
  const QuantFallback := 2.0
  const CombinedFallback := 5.0
  const AwFallback := 0.5

  /** The six z-scores of step 3, each with its fallback constant. */
  function ZScoresOf(u: Profile, s: SchoolStats): ZScores {
    ZScores(Quotient(u.gpa - s.gpa, s.gpaDev, GpaFallback),
            Quotient(u.otherGpa - s.gpa, s.gpaDev, OtherGpaFallback),
            Quotient(u.verbal - s.verbal, s.verbalDev, VerbalFallback),
            Quotient2(u.quant - s.quant, s.quantDev, QuantFallback),
            Quotient((u.quant + u.verbal) - s.combined, s.combinedDev, CombinedFallback),
            Quotient2(u.aw - s.aw, s.awDev, AwFallback))
  }

  /** A quotient times its divisor gives back the numerator; a zero divisor gives the fallback. */
  lemma {:induction false} QuotientMeaning(num: real, dev: real, fallback: real)
    ensures dev != 0.0 ==> Quotient(num, dev, fallback) * dev == num
    ensures dev != 0.0 ==> Quotient2(num, dev, fallback) * dev * dev == num
    ensures dev == 0.0 ==> Quotient(num, dev, fallback) == fallback == Quotient2(num, dev, fallback)
  {
    if dev != 0.0 {
      var q := num / dev;
      assert q * dev == num;
      assert (q / dev) * dev == q;
    }
  }

  /**
   * Each z-score undoes to its difference from the sample mean when its
   * deviation is non-zero (Quant and A/W through the deviation twice), and
   * is the fixed fallback otherwise.
   */
  lemma {:induction false} ZScoresMeaning(u: Profile, s: SchoolStats)
    ensures var z := ZScoresOf(u, s);
            && (s.gpaDev != 0.0 ==>
                  z.gpa * s.gpaDev == u.gpa - s.gpa && z.otherGpa * s.gpaDev == u.otherGpa - s.gpa)
            && (s.gpaDev == 0.0 ==> z.gpa == 0.1 && z.otherGpa == 0.1)
            && (s.verbalDev != 0.0 ==> z.verbal * s.verbalDev == u.verbal - s.verbal)
            && (s.verbalDev == 0.0 ==> z.verbal == 2.0)
            && (s.quantDev != 0.0 ==> z.quant * s.quantDev * s.quantDev == u.quant - s.quant)
            && (s.quantDev == 0.0 ==> z.quant == 2.0)
            && (s.combinedDev != 0.0 ==> z.combined * s.combinedDev == (u.quant + u.verbal) - s.combined)
            && (s.combinedDev == 0.0 ==> z.combined == 5.0)
            && (s.awDev != 0.0 ==> z.aw * s.awDev * s.awDev == u.aw - s.aw)
            && (s.awDev == 0.0 ==> z.aw == 0.5)
  {
    QuotientMeaning(u.gpa - s.gpa, s.gpaDev, GpaFallback);
    QuotientMeaning(u.otherGpa - s.gpa, s.gpaDev, OtherGpaFallback);
    QuotientMeaning(u.verbal - s.verbal, s.verbalDev, VerbalFallback);
    QuotientMeaning(u.quant - s.quant, s.quantDev, QuantFallback);
    QuotientMeaning((u.quant + u.verbal) - s.combined, s.combinedDev, CombinedFallback);
    QuotientMeaning(u.aw - s.aw, s.awDev, AwFallback);
  }

  // ---------------------------------------------------------------------
  // Step 7: one Monte Carlo trial
  // ---------------------------------------------------------------------

  /** The drawn category weights; the GPA weight is the constant 7.5. */
  datatype Weights = Weights(lor: int, sop: int, research: int, quant: int, verbal: int, combined: int, aw: int)

  const GpaWeight := 7.5

  /** The ranges the source draws the weights from. */
  predicate InDrawnRanges(w: Weights) {
    && 15 <= w.lor <= 30 && 15 <= w.sop <= 30 && 15 <= w.research <= 30
    && 10 <= w.quant <= 15
    && 1 <= w.verbal <= 5 && 1 <= w.combined <= 5 && 1 <= w.aw <= 5
  }

  /** `sum(weights.values())`: the eight values of the weights dictionary, GPA once. */
  function WeightSum(w: Weights): real {
    (w.lor as real) + (w.sop as real) + (w.research as real) + GpaWeight
    + (w.quant as real) + (w.verbal as real) + (w.combined as real) + (w.aw as real)
  }

  /** With drawn weights the denominator lies in [65.5, 127.5], so it is never zero. */
  lemma {:induction false} WeightSumRange(w: Weights)
    requires InDrawnRanges(w)
    ensures 65.5 <= WeightSum(w) <= 127.5
  {
  }

  /** The three drawn soft-factor z-values of a trial: LOR, SOP, research. */
  datatype SoftZ = SoftZ(lor: real, sop: real, research: real)

  /** The nine weighted terms, the GPA weight used for both GPA and Other GPA. */
  function SumInstance(z: ZScores, soft: SoftZ, w: Weights): real {
    soft.lor * (w.lor as real) + soft.sop * (w.sop as real) + soft.research * (w.research as real)
    + z.gpa * GpaWeight + z.otherGpa * GpaWeight + z.quant * (w.quant as real)
    + z.verbal * (w.verbal as real) + z.combined * (w.combined as real) + z.aw * (w.aw as real)
  }

  /** `z_score_instance` as the source computes it: nine weighted terms over eight weights. */
  function WeightedZ(z: ZScores, soft: SoftZ, w: Weights): real
    requires InDrawnRanges(w)
  {
    SumInstance(z, soft, w) / WeightSum(w)
  }

  /** The nine z-values of a trial all equal `c`. */
  predicate Uniform(z: ZScores, soft: SoftZ, c: real) {
    && soft.lor == c && soft.sop == c && soft.research == c
    && z.gpa == c && z.otherGpa == c && z.quant == c && z.verbal == c && z.combined == c && z.aw == c
  }

  /** The nine weights, Other GPA included: what a weighted average divides by. */
  function TotalWeight(w: Weights): real {
    WeightSum(w) + GpaWeight
  }

  /** Uniform z-values weigh in at `c` times the total of the nine weights. */
  lemma {:induction false} UniformSum(z: ZScores, soft: SoftZ, w: Weights, c: real)
    requires Uniform(z, soft, c)
    ensures SumInstance(z, soft, w) == c * TotalWeight(w)
  {
  }

  /**
   * As written, the weighted z-score times the eight weights it divides by
   * equals the weighted average times all nine weights: both are the sum of
   * the weighted instances, so the two scores differ by the ratio of the
   * weights.
   */
  lemma {:induction false} WeightedZScaled(z: ZScores, soft: SoftZ, w: Weights)
    requires InDrawnRanges(w)
    ensures WeightedZ(z, soft, w) * WeightSum(w) == WeightedAverageZ(z, soft, w) * TotalWeight(w)
  {
    WeightSumRange(w);
    var s := SumInstance(z, soft, w);
    Cancel(WeightedZ(z, soft, w), s, WeightSum(w));
    Cancel(WeightedAverageZ(z, soft, w), s, TotalWeight(w));
  }

  /** A quotient times its divisor gives back the dividend. */
  lemma {:induction false} Cancel(x: real, s: real, d: real)
    requires d > 0.0 && x == s / d
    ensures x * d == s
  {
  }

  /**
   * So the weighted z-score as written overshoots the weighted average
   * whenever that average is positive (and undershoots when it is
   * negative): Other GPA's weight is missing from the denominator.
   */
  lemma {:induction false} WeightedZOvershoots(z: ZScores, soft: SoftZ, w: Weights)
    requires InDrawnRanges(w)
    ensures WeightedAverageZ(z, soft, w) > 0.0 ==> WeightedZ(z, soft, w) > WeightedAverageZ(z, soft, w)
    ensures WeightedAverageZ(z, soft, w) < 0.0 ==> WeightedZ(z, soft, w) < WeightedAverageZ(z, soft, w)
  {
    WeightSumRange(w);
    Overshoot(SumInstance(z, soft, w), WeightSum(w));
  }

  /** Dividing by `d` instead of `d + 7.5` moves a quotient away from zero. */
  lemma {:induction false} Overshoot(s: real, d: real)
    requires d > 0.0
    ensures s / (d + GpaWeight) > 0.0 ==> s / d > s / (d + GpaWeight)
    ensures s / (d + GpaWeight) < 0.0 ==> s / d < s / (d + GpaWeight)
  {
    var t := d + GpaWeight;
    var a := s / t;
    assert s == a * d + a * GpaWeight;
    assert s / d == a + a * GpaWeight / d;
    if a > 0.0 {
      assert a * GpaWeight / d > 0.0;
    } else if a < 0.0 {
      assert a * GpaWeight / d < 0.0;
    }
  }

  /** A concrete trial: all nine z-values 1 with the smallest drawn weights gives 73 / 65.5, not 1. */
  lemma {:induction false} WeightedZExample()
    ensures var w := Weights(15, 15, 15, 10, 1, 1, 1);
            var z := ZScores(1.0, 1.0, 1.0, 1.0, 1.0, 1.0);
            WeightedZ(z, SoftZ(1.0, 1.0, 1.0), w) == 73.0 / 65.5
  {
  }

  /** The weighted average the estimator describes: the nine terms over the nine weights. */
  function WeightedAverageZ(z: ZScores, soft: SoftZ, w: Weights): real
    requires InDrawnRanges(w)
  {
    SumInstance(z, soft, w) / TotalWeight(w)
  }

  /** The corrected average of nine equal z-values is that value. */
  lemma {:induction false} WeightedAverageUniform(z: ZScores, soft: SoftZ, w: Weights, c: real)
    requires InDrawnRanges(w) && Uniform(z, soft, c)
    ensures WeightedAverageZ(z, soft, w) == c
  {
    UniformSum(z, soft, w, c);
    WeightSumRange(w);
    var t := TotalWeight(w);
    assert SumInstance(z, soft, w) == c * t;
    DivBack(c, t);
    assert WeightedAverageZ(z, soft, w) == c * t / t;
  }

  /** Multiplying by a non-zero divisor and dividing by it again gives the value back. */
  lemma {:induction false} DivBack(c: real, d: real)
    requires d != 0.0
    ensures c * d / d == c
  {
  }

  /** The corrected average grows with every z-value: raising one input never lowers it. */
  lemma {:induction false} WeightedAverageMonotone(z: ZScores, z': ZScores, soft: SoftZ, soft': SoftZ, w: Weights)
    requires InDrawnRanges(w)
    requires soft.lor <= soft'.lor && soft.sop <= soft'.sop && soft.research <= soft'.research
    requires z.gpa <= z'.gpa && z.otherGpa <= z'.otherGpa && z.quant <= z'.quant
    requires z.verbal <= z'.verbal && z.combined <= z'.combined && z.aw <= z'.aw
    ensures WeightedAverageZ(z, soft, w) <= WeightedAverageZ(z', soft', w)
  {
    SumInstanceMonotone(z, z', soft, soft', w);
    WeightSumRange(w);
    DivMono(SumInstance(z, soft, w), SumInstance(z', soft', w), TotalWeight(w));
  }

  /** The sum of the weighted terms grows with every z-value. */
  lemma {:induction false} SumInstanceMonotone(z: ZScores, z': ZScores, soft: SoftZ, soft': SoftZ, w: Weights)
    requires InDrawnRanges(w)
    requires soft.lor <= soft'.lor && soft.sop <= soft'.sop && soft.research <= soft'.research
    requires z.gpa <= z'.gpa && z.otherGpa <= z'.otherGpa && z.quant <= z'.quant
    requires z.verbal <= z'.verbal && z.combined <= z'.combined && z.aw <= z'.aw
    ensures SumInstance(z, soft, w) <= SumInstance(z', soft', w)
  {
    NineTermMonotone(soft.lor, soft.sop, soft.research, z.gpa, z.otherGpa, z.quant, z.verbal, z.combined, z.aw,
                     soft'.lor, soft'.sop, soft'.research, z'.gpa, z'.otherGpa, z'.quant, z'.verbal, z'.combined, z'.aw,
                     w.lor as real, w.sop as real, w.research as real, GpaWeight, GpaWeight,
                     w.quant as real, w.verbal as real, w.combined as real, w.aw as real);
  }

  /** A sum of nine non-negatively weighted terms grows with each term. */
  lemma {:induction false} NineTermMonotone(x1: real, x2: real, x3: real, x4: real, x5: real, x6: real, x7: real, x8: real, x9: real,
                         y1: real, y2: real, y3: real, y4: real, y5: real, y6: real, y7: real, y8: real, y9: real,
                         w1: real, w2: real, w3: real, w4: real, w5: real, w6: real, w7: real, w8: real, w9: real)
    requires x1 <= y1 && x2 <= y2 && x3 <= y3 && x4 <= y4 && x5 <= y5
    requires x6 <= y6 && x7 <= y7 && x8 <= y8 && x9 <= y9
    requires 0.0 <= w1 && 0.0 <= w2 && 0.0 <= w3 && 0.0 <= w4 && 0.0 <= w5
    requires 0.0 <= w6 && 0.0 <= w7 && 0.0 <= w8 && 0.0 <= w9
    ensures x1 * w1 + x2 * w2 + x3 * w3 + x4 * w4 + x5 * w5 + x6 * w6 + x7 * w7 + x8 * w8 + x9 * w9
            <= y1 * w1 + y2 * w2 + y3 * w3 + y4 * w4 + y5 * w5 + y6 * w6 + y7 * w7 + y8 * w8 + y9 * w9
  {
    ScaleMono(x1, y1, w1);
    ScaleMono(x2, y2, w2);
    ScaleMono(x3, y3, w3);
    ScaleMono(x4, y4, w4);
    ScaleMono(x5, y5, w5);
    ScaleMono(x6, y6, w6);
    ScaleMono(x7, y7, w7);
    ScaleMono(x8, y8, w8);
    ScaleMono(x9, y9, w9);
    SumLe(x1 * w1, x2 * w2, x3 * w3, x4 * w4, x5 * w5, x6 * w6, x7 * w7, x8 * w8, x9 * w9,
          y1 * w1, y2 * w2, y3 * w3, y4 * w4, y5 * w5, y6 * w6, y7 * w7, y8 * w8, y9 * w9);
  }

  /** Termwise smaller summands give a smaller sum. */
  lemma {:induction false} SumLe(p1: real, p2: real, p3: real, p4: real, p5: real, p6: real, p7: real, p8: real, p9: real,
                                 q1: real, q2: real, q3: real, q4: real, q5: real, q6: real, q7: real, q8: real, q9: real)
    requires p1 <= q1 && p2 <= q2 && p3 <= q3 && p4 <= q4 && p5 <= q5
    requires p6 <= q6 && p7 <= q7 && p8 <= q8 && p9 <= q9
    ensures p1 + p2 + p3 + p4 + p5 + p6 + p7 + p8 + p9 <= q1 + q2 + q3 + q4 + q5 + q6 + q7 + q8 + q9
  {
  }

  /** A non-negative weight keeps the order of what it scales. */
  lemma {:induction false} ScaleMono(a: real, b: real, w: real)
    requires a <= b && 0.0 <= w
    ensures a * w <= b * w
  {
  }

  /** A positive divisor keeps the order of what it divides. */
  lemma {:induction false} DivMono(a: real, b: real, d: real)
    requires a <= b && 0.0 < d
    ensures a / d <= b / d
  {
    assert (b - a) / d >= 0.0;
  }

  /** The spread of the normal CDF a trial uses: above the sample z-score strictly, else below. */
  function Spread(zInstance: real, sample: real, above: real, below: real): real {
    if zInstance > sample then above else below
  }

  /** "Above Std. Dev.": the spread that stretches the tail out to a z-score of 3. */
  function AboveSpread(sample: real): real {
    (3.0 - sample) / 3.0
  }

  /**
   * Below a sample z-score of 3 and with a positive lower spread, every
   * trial's CDF is taken with a positive spread, whichever side it is on.
   */
  lemma {:induction false} SpreadPositive(zInstance: real, sample: real, below: real)
    requires sample < 3.0 && below > 0.0
    ensures AboveSpread(sample) > 0.0
    ensures Spread(zInstance, sample, AboveSpread(sample), below) > 0.0
  {
    assert 3.0 - sample > 0.0;
  }

  /** One trial's drawn values: the three soft-factor percentiles and the weights. */
  datatype Draw = Draw(lor: int, sop: int, research: int, weights: Weights)

  /**
   * What a trial divides its weighted sum by: the eight values of the
   * weights dictionary, as the source does, or all nine weights, as a
   * weighted average would.
   */
  datatype Divisor = EightValues | NineWeights

  /** The trial's z-score under divisor `div`. */
  function TrialZ(z: ZScores, soft: SoftZ, w: Weights, div: Divisor): real
    requires InDrawnRanges(w)
  {
    match div
    case EightValues => WeightedZ(z, soft, w)
    case NineWeights => WeightedAverageZ(z, soft, w)
  }

  /**
   * The two divisors on one trial: all nine z-values 1 with the smallest
   * drawn weights give 73 / 65.5 as the source divides, and 1 as a weighted
   * average does.
   */
  lemma {:induction false} TrialZExample()
    ensures var w := Weights(15, 15, 15, 10, 1, 1, 1);
            var z := ZScores(1.0, 1.0, 1.0, 1.0, 1.0, 1.0);
            var soft := SoftZ(1.0, 1.0, 1.0);
            && TrialZ(z, soft, w, EightValues) == 73.0 / 65.5
            && TrialZ(z, soft, w, NineWeights) == 1.0
  {
    var w := Weights(15, 15, 15, 10, 1, 1, 1);
    var z := ZScores(1.0, 1.0, 1.0, 1.0, 1.0, 1.0);
    WeightedZExample();
    WeightedAverageUniform(z, SoftZ(1.0, 1.0, 1.0), w, 1.0);
  }

  /**
   * The per-trial chance: the CDF at the trial's z-score (under divisor
   * `div`) with the spread on its side of the sample z-score.
   */
  function TrialChance(z: ZScores, d: Draw, sample: real, below: real,
                       ppf: real -> real, cdf: (real, real, real) -> real, div: Divisor): real
    requires InDrawnRanges(d.weights)
  {
    var soft := SoftZ(ppf((d.lor as real) / 100.0), ppf((d.sop as real) / 100.0),
                      ppf((d.research as real) / 100.0));
    var zi := TrialZ(z, soft, d.weights, div);
    cdf(zi, sample, Spread(zi, sample, AboveSpread(sample), below))
  }

  /** All weights of every draw lie in their drawn ranges. */
  predicate AllInRanges(draws: seq<Draw>) {
    forall i :: 0 <= i < |draws| ==> InDrawnRanges(draws[i].weights)
  }

  /** `chance_sum` after the trials `draws`, accumulated left to right. */
  function ChanceSum(z: ZScores, draws: seq<Draw>, sample: real, below: real,
                     ppf: real -> real, cdf: (real, real, real) -> real, div: Divisor): real
    requires AllInRanges(draws)
  {
    if draws == [] then 0.0
    else ChanceSum(z, draws[..|draws| - 1], sample, below, ppf, cdf, div)
         + TrialChance(z, draws[|draws| - 1], sample, below, ppf, cdf, div)
  }

  /** The number of Monte Carlo trials. */
  const Instances := 1000

  /** One more trial adds its chance to the running sum. */
  lemma {:induction false} ChanceSumStep(z: ZScores, draws: seq<Draw>, i: nat, sample: real, below: real,
                      ppf: real -> real, cdf: (real, real, real) -> real, div: Divisor)
    requires i < |draws| && AllInRanges(draws)
    ensures AllInRanges(draws[..i]) && AllInRanges(draws[..i + 1])
    ensures ChanceSum(z, draws[..i + 1], sample, below, ppf, cdf, div)
            == ChanceSum(z, draws[..i], sample, below, ppf, cdf, div) + TrialChance(z, draws[i], sample, below, ppf, cdf, div)
  {
    assert draws[..i + 1][..i] == draws[..i];
  }

  /** A normal distribution function: with a positive spread every value lies in [0, 1]. */
  ghost predicate IsCdf(cdf: (real, real, real) -> real) {
    forall x, m, sd :: sd > 0.0 ==> 0.0 <= cdf(x, m, sd) <= 1.0
  }

  /**
   * When the spreads are positive every trial's value is a probability, so
   * the sum of `k` trials lies in [0, k], under either divisor.
   */
  lemma {:induction false} ChanceSumRange(z: ZScores, draws: seq<Draw>, sample: real, below: real,
                                          ppf: real -> real, cdf: (real, real, real) -> real, div: Divisor)
    requires AllInRanges(draws) && IsCdf(cdf) && sample < 3.0 && below > 0.0
    ensures 0.0 <= ChanceSum(z, draws, sample, below, ppf, cdf, div) <= |draws| as real
  {
    if draws != [] {
      var n := |draws| - 1;
      assert AllInRanges(draws[..n]);
      ChanceSumRange(z, draws[..n], sample, below, ppf, cdf, div);
      var d := draws[n];
      var soft := SoftZ(ppf((d.lor as real) / 100.0), ppf((d.sop as real) / 100.0),
                        ppf((d.research as real) / 100.0));
      SpreadPositive(TrialZ(z, soft, d.weights, div), sample, below);
    }
  }

  /** The estimate is the mean of the trials' values: in [0, 1] when the spreads are positive. */
  lemma {:induction false} EstimateRange(z: ZScores, draws: seq<Draw>, sample: real, below: real,
                      ppf: real -> real, cdf: (real, real, real) -> real, div: Divisor)
    requires |draws| == Instances && AllInRanges(draws) && IsCdf(cdf) && sample < 3.0 && below > 0.0
    ensures 0.0 <= ChanceSum(z, draws, sample, below, ppf, cdf, div) / (Instances as real) <= 1.0
  {
    ChanceSumRange(z, draws, sample, below, ppf, cdf, div);
  }

  /**
   * One trial of step 7: the three drawn percentiles through the normal
   * quantile function, the weighted sum over divisor `div` (the source's is
   * `EightValues`), then the CDF with the spread on the trial's side of the
   * sample z-score.
   */
  method RunTrial(z: ZScores, d: Draw, sample: real, above: real, below: real,
                  ppf: real -> real, cdf: (real, real, real) -> real, div: Divisor)
    returns (chance: real)
    requires InDrawnRanges(d.weights) && above == AboveSpread(sample)
    ensures chance == TrialChance(z, d, sample, below, ppf, cdf, div)
  {
    var soft := SoftZ(ppf((d.lor as real) / 100.0), ppf((d.sop as real) / 100.0),
                      ppf((d.research as real) / 100.0));
    var sumInstance := SumInstance(z, soft, d.weights);
    var zInstance;
    if div == EightValues {
      zInstance := sumInstance / WeightSum(d.weights);
    } else {
      zInstance := sumInstance / TotalWeight(d.weights);
    }
    if zInstance > sample {
      chance := cdf(zInstance, sample, above);
    } else {
      chance := cdf(zInstance, sample, below);
    }
  }

  /**
   * Step 7 of `chance_calc`: 1000 trials with the given draws, each adding
   * its chance to the running sum; returns "Chance" as a percentage.
   * `ppf` and `cdf` stand for the normal quantile and distribution
   * functions, `below` for the spread of step 6 under the sample z-score,
   * `div` for the trials' divisor.
   */
  method MonteCarlo(z: ZScores, draws: seq<Draw>, sample: real, below: real,
                    ppf: real -> real, cdf: (real, real, real) -> real, div: Divisor)
    returns (chancePercent: real)
    requires |draws| == Instances && AllInRanges(draws)
    ensures chancePercent == ChanceSum(z, draws, sample, below, ppf, cdf, div) / (Instances as real) * 100.0
  {
    var above := (3.0 - sample) / 3.0;
    var chanceSum := 0.0;
    chancePercent := 0.0;
    var i := 0;
    while i < Instances
      invariant 0 <= i <= Instances
      invariant chanceSum == ChanceSum(z, draws[..i], sample, below, ppf, cdf, div)
      invariant i > 0 ==> chancePercent == chanceSum / (Instances as real) * 100.0
    {
      var chance := RunTrial(z, draws[i], sample, above, below, ppf, cdf, div);
      ChanceSumStep(z, draws, i, sample, below, ppf, cdf, div);
      chanceSum := chanceSum + chance;
      chancePercent := chanceSum / (Instances as real) * 100.0;
      i := i + 1;
    }
    assert draws[..Instances] == draws;
  }

  /**
   * Steps 1-3, 5 (the sample z-score) and 7 of `chance_calc` for one
   * school and degree: the test rate, the z-scores, the sample z-score at
   * one minus the test rate, then the trials.
   */
  method EstimateChance(u: Profile, s: SchoolStats, draws: seq<Draw>, below: real,
                        ppf: real -> real, cdf: (real, real, real) -> real, div: Divisor)
    returns (chancePercent: real)
    requires s.accepted + s.rejected > 0
    requires |draws| == Instances && AllInRanges(draws)
    ensures var sample := ppf(1.0 - TestAcceptRate(AcceptRate(s.accepted, s.rejected)));
            chancePercent
              == ChanceSum(ZScoresOf(u, s), draws, sample, below, ppf, cdf, div) / (Instances as real) * 100.0
  {
    var acceptRate := (s.accepted as real) / ((s.accepted as real) + (s.rejected as real));
    var testAcceptRate;
    if acceptRate == 1.0 {
      testAcceptRate := 0.99;
    } else if acceptRate == 0.0 {
      testAcceptRate := 0.01;
    } else {
      testAcceptRate := acceptRate;
    }
    var z := ZScoresOf(u, s);
    var sample := ppf(1.0 - testAcceptRate);
    chancePercent := MonteCarlo(z, draws, sample, below, ppf, cdf, div);
  }

  // ---------------------------------------------------------------------
  // Write-back of a degree chance
  // ---------------------------------------------------------------------

  /** A school record the row for `name` and `degree` applies to. */
  predicate Matches(x: School, name: string, degree: Degree) {
    x.name == name && Offers(x, degree)
  }

  /** `x` with its chance for `degree` set to `c`. */
  function SetChance(x: School, degree: Degree, c: real): School {
    match degree
    case PhD => x.(phdChance := Some(c))
    case MS => x.(msChance := Some(c))
  }

  /** The school list after the write-back: matching records get the chance, the rest are kept. */
  function WriteBack(s: seq<School>, name: string, degree: Degree, c: real): (r: seq<School>)
    ensures |r| == |s|
  {
    seq(|s|, i requires 0 <= i < |s| => if Matches(s[i], name, degree) then SetChance(s[i], degree, c) else s[i])
  }

  /**
   * Only schools with the row's name that offer its degree are touched,
   * and on them only that degree's chance, which then reads `c`.
   */
  lemma {:induction false} WriteBackEffect(s: seq<School>, name: string, degree: Degree, c: real, i: nat)
    requires i < |s|
    ensures !Matches(s[i], name, degree) ==> WriteBack(s, name, degree, c)[i] == s[i]
    ensures Matches(s[i], name, degree) ==>
              var x := WriteBack(s, name, degree, c)[i];
              && (degree == PhD ==> x.phdChance == Some(c) && x.(phdChance := s[i].phdChance) == s[i])
              && (degree == MS ==> x.msChance == Some(c) && x.(msChance := s[i].msChance) == s[i])
  {
  }

  /** Writing the same row twice is the same as writing it once. */
  lemma {:induction false} WriteBackIdempotent(s: seq<School>, name: string, degree: Degree, c: real)
    ensures WriteBack(WriteBack(s, name, degree, c), name, degree, c) == WriteBack(s, name, degree, c)
  {
    var r := WriteBack(s, name, degree, c);
    forall i | 0 <= i < |s|
      ensures WriteBack(r, name, degree, c)[i] == r[i]
    {
      assert Matches(r[i], name, degree) == Matches(s[i], name, degree);
    }
  }

  /** After the write-back every matching school has its chance for the degree. */
  lemma {:induction false} WriteBackProvides(s: seq<School>, name: string, degree: Degree, c: real)
    ensures forall i :: 0 <= i < |s| && Matches(s[i], name, degree) ==>
              (degree == PhD ==> PhdChance(WriteBack(s, name, degree, c)[i]) == c)
              && (degree == MS ==> MsChance(WriteBack(s, name, degree, c)[i]) == c)
  {
  }

  /** The write-back loop over the school records held in `a`. */
  method WriteChance(a: array<School>, name: string, degree: Degree, chancePercent: real)
    modifies a
    ensures a[..] == WriteBack(old(a[..]), name, degree, chancePercent / 100.0)
  {
    ghost var s := a[..];
    var i := 0;
    while i < a.Length
      invariant 0 <= i <= a.Length
      invariant forall j :: 0 <= j < i ==> a[j] == WriteBack(s, name, degree, chancePercent / 100.0)[j]
      invariant forall j :: i <= j < a.Length ==> a[j] == s[j]
    {
      var school := a[i];
      var offered := match degree case PhD => school.phd case MS => school.ms;
      if school.name == name && offered {
        match degree
        case PhD => a[i] := school.(phdChance := Some(chancePercent / 100.0));
        case MS => a[i] := school.(msChance := Some(chancePercent / 100.0));
      }
      i := i + 1;
    }
  }

  // ---------------------------------------------------------------------
  // chance_query: the WHERE fragments
  // ---------------------------------------------------------------------

  /** One appended clause, with its trailing "OR ". */
  function Clause(name: string): string {
    "School LIKE '" + name + "' OR "
  }

  /** The school name an empty fragment is replaced with. */
  const Placeholder := "No school was selected"

  /** The appended clauses for the schools offering `degree`, in list order. */
  function Fragment(schools: seq<School>, degree: Degree): string {
    if schools == [] then ""
    else
      var n := |schools| - 1;
      Fragment(schools[..n], degree) + (if Offers(schools[n], degree) then Clause(schools[n].name) else "")
  }

  /** An empty fragment becomes the placeholder clause; then the final "OR " is cut. */
  function Finish(fragment: string): string {
    var f := if fragment == "" then Clause(Placeholder) else fragment;
    if |f| >= 3 then f[..|f| - 3] else ""
  }

  /** The names of the schools offering `degree`, in list order. */
  function OfferingNames(schools: seq<School>, degree: Degree): seq<string> {
    if schools == [] then []
    else
      var n := |schools| - 1;
      OfferingNames(schools[..n], degree) + (if Offers(schools[n], degree) then [schools[n].name] else [])
  }

  /** One condition, without the joining keyword. */
  function Condition(name: string): string {
    "School LIKE '" + name + "'"
  }

  /** Conditions joined by " OR ", the last one followed by a single space. */
  function JoinConditions(names: seq<string>): string
    requires |names| > 0
  {
    if |names| == 1 then Condition(names[0]) + " "
    else Condition(names[0]) + " OR " + JoinConditions(names[1..])
  }

  /** Concatenated clauses of `names`, each with its trailing "OR ". */
  function Clauses(names: seq<string>): string {
    if names == [] then "" else Clause(names[0]) + Clauses(names[1..])
  }

  /** Appending a name appends its clause. */
  lemma {:induction false} ClausesSnoc(names: seq<string>, x: string)
    ensures Clauses(names + [x]) == Clauses(names) + Clause(x)
  {
    if names != [] {
      assert (names + [x])[1..] == names[1..] + [x];
      ClausesSnoc(names[1..], x);
    }
  }

  /** The fragment is the clauses of the offering schools' names, in list order. */
  lemma {:induction false} FragmentIsClauses(schools: seq<School>, degree: Degree)
    ensures Fragment(schools, degree) == Clauses(OfferingNames(schools, degree))
  {
    if schools != [] {
      var n := |schools| - 1;
      FragmentIsClauses(schools[..n], degree);
      if Offers(schools[n], degree) {
        ClausesSnoc(OfferingNames(schools[..n], degree), schools[n].name);
      } else {
        assert OfferingNames(schools, degree) == OfferingNames(schools[..n], degree) + [];
        assert OfferingNames(schools[..n], degree) + [] == OfferingNames(schools[..n], degree);
        assert Fragment(schools, degree) == Fragment(schools[..n], degree) + "";
        assert Fragment(schools[..n], degree) + "" == Fragment(schools[..n], degree);
      }
    }
  }

  /** Dropping the final "OR " from the clauses leaves the conditions joined by " OR ". */
  lemma {:induction false} ClausesJoin(names: seq<string>)
    requires |names| > 0
    ensures |Clauses(names)| >= 3
    ensures Clauses(names)[..|Clauses(names)| - 3] == JoinConditions(names)
  {
    var c := Clause(names[0]);
    assert c == Condition(names[0]) + " OR ";
    if |names| == 1 {
      assert Clauses(names) == c + Clauses([]);
    } else {
      ClausesJoin(names[1..]);
      var rest := Clauses(names[1..]);
      assert Clauses(names) == c + rest;
      assert (c + rest)[..|c + rest| - 3] == c + rest[..|rest| - 3];
    }
  }

  /**
   * The finished fragment is the offering schools' conditions joined by
   * " OR ", or the placeholder condition alone when no school offers the
   * degree; so it holds one condition per offering school, or one.
   */
  lemma {:induction false} QueryFragment(schools: seq<School>, degree: Degree)
    ensures var names := OfferingNames(schools, degree);
            Finish(Fragment(schools, degree)) == JoinConditions(if names == [] then [Placeholder] else names)
  {
    var names := OfferingNames(schools, degree);
    FragmentIsClauses(schools, degree);
    if names == [] {
      ClausesJoin([Placeholder]);
      assert Clauses([Placeholder]) == Clause(Placeholder) + Clauses([]);
    } else {
      ClausesJoin(names);
    }
  }

  /** Passing the school at `i` appends its clause to the fragment exactly when it offers the degree. */
  lemma {:induction false} FragmentStep(schools: seq<School>, i: nat, degree: Degree, acc: string)
    requires i < |schools| && acc == Fragment(schools[..i], degree)
    ensures Offers(schools[i], degree) ==> acc + Clause(schools[i].name) == Fragment(schools[..i + 1], degree)
    ensures !Offers(schools[i], degree) ==> acc == Fragment(schools[..i + 1], degree)
  {
    assert schools[..i + 1][..i] == schools[..i];
    assert acc + "" == acc;
  }

  /**
   * The fragment builder of `chance_query`: the appending loop over the
   * schools, the placeholder for an empty fragment, and the cut of the
   * final "OR ".
   */
  method BuildFragments(schools: seq<School>) returns (phdQuery: string, msQuery: string)
    ensures phdQuery == Finish(Fragment(schools, PhD))
    ensures msQuery == Finish(Fragment(schools, MS))
  {
    phdQuery, msQuery := "", "";
    var i := 0;
    while i < |schools|
      invariant 0 <= i <= |schools|
      invariant phdQuery == Fragment(schools[..i], PhD)
      invariant msQuery == Fragment(schools[..i], MS)
    {
      var school := schools[i];
      FragmentStep(schools, i, PhD, phdQuery);
      FragmentStep(schools, i, MS, msQuery);
      if school.phd {
        phdQuery := phdQuery + Clause(school.name);
      }
      if school.ms {
        msQuery := msQuery + Clause(school.name);
      }
      i := i + 1;
    }
    assert schools[..i] == schools;
    if phdQuery == "" {
      phdQuery := Clause(Placeholder);
    }
    if msQuery == "" {
      msQuery := Clause(Placeholder);
    }
    phdQuery := if |phdQuery| >= 3 then phdQuery[..|phdQuery| - 3] else "";
    msQuery := if |msQuery| >= 3 then msQuery[..|msQuery| - 3] else "";
  }
}
