/**
 * The tier classifier (`optimize_tier_calc`): splits the winning schools,
 * already sorted by rank, into Top / Mid / Bottom by position, writes each
 * school's tier and cumulative chances, and reports one chance per tier.
 */
module Tiers {
  import opened Schools

  /** "Top Tier Chance", "Mid Tier Chance", "Bottom Tier Chance". */
  datatype TierChances = TierChances(top: real, mid: real, bottom: real)

  /** `int(n / 3)`: the size of the Top tier. */
  function Divider(n: nat): nat {
    n / 3
  }

  /** The size of the Mid tier: the divider, plus one when n % 3 == 2. */
  function MidSize(n: nat): nat {
    n / 3 + (if n % 3 == 2 then 1 else 0)
  }

  /** The tier of position `i` in a list of `n` schools, as the source's branches decide it. */
  function TierOf(i: nat, n: nat): Tier {
    var divider := n / 3;
    if i < divider then Top
    else if (i < divider * 2 && n % 3 != 2) || (i <= divider * 2 && n % 3 == 2) then Mid
    else Bottom
  }

  /** Where tier `t` starts in a list of `n` schools. */
  function TierStart(t: Tier, n: nat): nat {
    match t
    case Top => 0
    case Mid => Divider(n)
    case Bottom => Divider(n) + MidSize(n)
  }

  /** Where tier `t` ends (exclusive) in a list of `n` schools. */
  function TierEnd(t: Tier, n: nat): nat {
    match t
    case Top => Divider(n)
    case Mid => Divider(n) + MidSize(n)
    case Bottom => n
  }

  /**
   * The tiers are three consecutive runs that cover the list: Top is the
   * first `n / 3` positions, Mid the next `MidSize(n)`, Bottom the rest.
   */
  lemma {:induction false} TierRanges(i: nat, n: nat)
    requires i < n
    ensures TierStart(Top, n) == 0 && TierEnd(Bottom, n) == n
    ensures TierEnd(Top, n) == TierStart(Mid, n) && TierEnd(Mid, n) == TierStart(Bottom, n)
    ensures TierStart(Bottom, n) <= n
    ensures TierOf(i, n) == Top <==> i < TierEnd(Top, n)
    ensures TierOf(i, n) == Mid <==> TierStart(Mid, n) <= i < TierEnd(Mid, n)
    ensures TierOf(i, n) == Bottom <==> TierStart(Bottom, n) <= i
  {
  }

  /** Tier boundaries are ordered within the list, whatever its length. */
  lemma {:induction false} TierBounds(t: Tier, n: nat)
    ensures TierStart(t, n) <= TierEnd(t, n) <= n
  {
  }

  /** The three fields the classifier writes on a school. */
  function Annotate(s: School, t: Tier, cumulative: real, cumulativeBackup: real): School {
    s.(tier := Some(t), cumulative := Some(cumulative), cumulativeBackup := Some(cumulativeBackup))
  }

  /**
   * The list after classification: position i gets its tier, and as
   * cumulative chances the chance of at least one admission among schools
   * 0..i (primary degree only, and including the backup degree).
   */
  function Tiered(s: seq<School>): (r: seq<School>)
    ensures |r| == |s|
  {
    seq(|s|, i requires 0 <= i < |s| =>
      Annotate(s[i], TierOf(i, |s|),
               1.0 - Running(MissOf(PrimaryMiss), s, i + 1),
               1.0 - Running(MissOf(BackupMiss), s, i + 1)))
  }

  /** The schools of `s` that tier `t` holds. */
  function TierSlice(s: seq<School>, t: Tier): seq<School> {
    TierBounds(t, |s|);
    s[TierStart(t, |s|)..TierEnd(t, |s|)]
  }

  /** Each tier's chance of at least one admission, over that tier's schools only. */
  function TierChancesOf(s: seq<School>): TierChances {
    TierChances(1.0 - FailProduct(PrimaryMiss, TierSlice(s, Top)),
                1.0 - FailProduct(PrimaryMiss, TierSlice(s, Mid)),
                1.0 - FailProduct(PrimaryMiss, TierSlice(s, Bottom)))
  }

  /** `i` held within [lo, hi]: how far a running product over [lo, hi) has advanced after `i` schools. */
  function Clamp(i: nat, lo: nat, hi: nat): nat {
    if i < lo then lo else if i < hi then i else hi
  }

  /**
   * A running product that only takes in the schools at positions
   * [lo, hi): its value after the first `i` schools of `s`.
   */
  function RunningProduct(f: School -> real, s: seq<School>, i: nat, lo: nat, hi: nat): real
    requires i <= |s|
  {
    if i == 0 then 1.0
    else RunningProduct(f, s, i - 1, lo, hi) * (if lo <= i - 1 < hi then f(s[i - 1]) else 1.0)
  }

  /** One step of a running product: it takes in the school at `i` exactly when `i` lies in [lo, hi). */
  lemma {:induction false} StepRunning(f: School -> real, s: seq<School>, i: nat, lo: nat, hi: nat, acc: real, x: real)
    requires i < |s| && acc == RunningProduct(f, s, i, lo, hi) && x == f(s[i])
    ensures lo <= i < hi ==> acc * x == RunningProduct(f, s, i + 1, lo, hi)
    ensures !(lo <= i < hi) ==> acc == RunningProduct(f, s, i + 1, lo, hi)
  {
  }

  /** One step of the three tier products: only the product of the school's own tier takes it in. */
  lemma {:induction false} StepTiers(f: School -> real, s: seq<School>, i: nat, top: real, mid: real, bottom: real, x: real)
    requires i < |s| && x == f(s[i])
    requires top == RunningProduct(f, s, i, TierStart(Top, |s|), TierEnd(Top, |s|))
    requires mid == RunningProduct(f, s, i, TierStart(Mid, |s|), TierEnd(Mid, |s|))
    requires bottom == RunningProduct(f, s, i, TierStart(Bottom, |s|), TierEnd(Bottom, |s|))
    ensures (if TierOf(i, |s|) == Top then top * x else top)
            == RunningProduct(f, s, i + 1, TierStart(Top, |s|), TierEnd(Top, |s|))
    ensures (if TierOf(i, |s|) == Mid then mid * x else mid)
            == RunningProduct(f, s, i + 1, TierStart(Mid, |s|), TierEnd(Mid, |s|))
    ensures (if TierOf(i, |s|) == Bottom then bottom * x else bottom)
            == RunningProduct(f, s, i + 1, TierStart(Bottom, |s|), TierEnd(Bottom, |s|))
  {
    TierRanges(i, |s|);
    StepRunning(f, s, i, TierStart(Top, |s|), TierEnd(Top, |s|), top, x);
    StepRunning(f, s, i, TierStart(Mid, |s|), TierEnd(Mid, |s|), mid, x);
    StepRunning(f, s, i, TierStart(Bottom, |s|), TierEnd(Bottom, |s|), bottom, x);
  }

  /** Such a running product is the product over the part of [lo, hi) already passed. */
  lemma {:induction false} RunningProductSlice(f: School -> real, s: seq<School>, i: nat, lo: nat, hi: nat)
    requires i <= |s| && lo <= hi <= |s|
    ensures RunningProduct(f, s, i, lo, hi) == Prod(f, s[lo..Clamp(i, lo, hi)])
  {
    if i > 0 {
      var j := i - 1;
      RunningProductSlice(f, s, j, lo, hi);
      if lo <= j < hi {
        SliceSnoc(f, s, lo, j);
      } else {
        assert Clamp(i, lo, hi) == Clamp(j, lo, hi);
      }
    }
  }

  /** Once the whole list is passed, a tier's running product is the product over that tier. */
  lemma {:induction false} RunningTier(f: School -> real, s: seq<School>, t: Tier)
    ensures RunningProduct(f, s, |s|, TierStart(t, |s|), TierEnd(t, |s|)) == Prod(f, TierSlice(s, t))
  {
    TierBounds(t, |s|);
    RunningProductSlice(f, s, |s|, TierStart(t, |s|), TierEnd(t, |s|));
  }

  /**
   * The loop state after the first `item` schools of `s`: the cumulative
   * products over the prefix and each tier's running product.
   */
  ghost predicate Scanned(s: seq<School>, item: nat, top: real, mid: real, bottom: real,
                          cumulative: real, cumulativeBackup: real)
    requires item <= |s|
  {
    && cumulative == Running(MissOf(PrimaryMiss), s, item)
    && cumulativeBackup == Running(MissOf(BackupMiss), s, item)
    && top == RunningProduct(MissOf(PrimaryMiss), s, item, TierStart(Top, |s|), TierEnd(Top, |s|))
    && mid == RunningProduct(MissOf(PrimaryMiss), s, item, TierStart(Mid, |s|), TierEnd(Mid, |s|))
    && bottom == RunningProduct(MissOf(PrimaryMiss), s, item, TierStart(Bottom, |s|), TierEnd(Bottom, |s|))
  }

  /** Before any school is passed every running product is 1. */
  lemma {:induction false} ScannedStart(s: seq<School>)
    ensures Scanned(s, 0, 1.0, 1.0, 1.0, 1.0, 1.0)
  {
  }

  /** Once every school is passed, the tier products give the tier chances. */
  lemma {:induction false} ScannedEnd(s: seq<School>, top: real, mid: real, bottom: real,
                                      cumulative: real, cumulativeBackup: real)
    requires Scanned(s, |s|, top, mid, bottom, cumulative, cumulativeBackup)
    ensures TierChances(1.0 - top, 1.0 - mid, 1.0 - bottom) == TierChancesOf(s)
  {
    RunningTier(MissOf(PrimaryMiss), s, Top);
    RunningTier(MissOf(PrimaryMiss), s, Mid);
    RunningTier(MissOf(PrimaryMiss), s, Bottom);
  }

  /**
   * One pass of the classifier's loop over the school at `item`: its tier
   * by position, its miss factors, the updated running products, and the
   * school as written back.
   */
  method ClassifyStep(ghost s: seq<School>, current: School, item: nat, n: nat, runningTop: real, runningMid: real,
                      runningBottom: real, cumulative: real, cumulativeBackup: real)
    returns (school: School, top: real, mid: real, bottom: real, cumulative': real, cumulativeBackup': real)
    requires n == |s| && item < n && current == s[item] && HasChances(current)
    requires Scanned(s, item, runningTop, runningMid, runningBottom, cumulative, cumulativeBackup)
    ensures school == Tiered(s)[item]
    ensures Scanned(s, item + 1, top, mid, bottom, cumulative', cumulativeBackup')
  {
    var divider := n / 3;
    var phdChance := if current.phd then current.phdChance.value else 0.0;
    var msChance := if current.ms then current.msChance.value else 0.0;
    var miss := if current.phd then 1.0 - phdChance else 1.0 - msChance;
    var backupMiss := 1.0 - (phdChance + (1.0 - phdChance) * msChance);
    assert && miss == Miss(PrimaryMiss, s[item]) && miss == MissOf(PrimaryMiss)(s[item])
           && backupMiss == Miss(BackupMiss, s[item]) && backupMiss == MissOf(BackupMiss)(s[item]) by {
      SourceMisses(current, phdChance, msChance);
    }
    StepTiers(MissOf(PrimaryMiss), s, item, runningTop, runningMid, runningBottom, miss);
    top, mid, bottom := runningTop, runningMid, runningBottom;
    var tier;
    if item < divider {
      assert TierOf(item, n) == Top by { TierRanges(item, n); }
      top := runningTop * miss;
      tier := Top;
    } else if (item < divider * 2 && n % 3 != 2) || (item <= divider * 2 && n % 3 == 2) {
      assert TierOf(item, n) == Mid by { TierRanges(item, n); }
      mid := runningMid * miss;
      tier := Mid;
    } else {
      assert TierOf(item, n) == Bottom by { TierRanges(item, n); }
      bottom := runningBottom * miss;
      tier := Bottom;
    }
    cumulative' := cumulative * miss;
    cumulativeBackup' := cumulativeBackup * backupMiss;
    RunningExtend(MissOf(PrimaryMiss), s, item, cumulative, miss);
    RunningExtend(MissOf(BackupMiss), s, item, cumulativeBackup, backupMiss);
    school := current.(tier := Some(tier), cumulative := Some(1.0 - cumulative'),
                       cumulativeBackup := Some(1.0 - cumulativeBackup'));
  }

  /**
   * `optimize_tier_calc` on the list held in `a`, updating its schools in
   * place; returns the three tier chances.
   */
  method TierCalc(a: array<School>) returns (t: TierChances)
    requires AllHaveChances(a[..])
    modifies a
    ensures a[..] == Tiered(old(a[..]))
    ensures t == TierChancesOf(old(a[..]))
  {
    ghost var s := a[..];
    var n := a.Length;
    var runningTop, runningMid, runningBottom := 1.0, 1.0, 1.0;
    var cumulative, cumulativeBackup := 1.0, 1.0;
    var item := 0;
    ScannedStart(s);
    while item < n
      invariant 0 <= item <= n
      invariant forall j :: 0 <= j < item ==> a[j] == Tiered(s)[j]
      invariant forall j :: item <= j < n ==> a[j] == s[j]
      invariant Scanned(s, item, runningTop, runningMid, runningBottom, cumulative, cumulativeBackup)
    {
      var school;
      school, runningTop, runningMid, runningBottom, cumulative, cumulativeBackup :=
        ClassifyStep(s, a[item], item, n, runningTop, runningMid, runningBottom, cumulative, cumulativeBackup);
      a[item] := school;
      item := item + 1;
    }
    assert a[..] == Tiered(s);
    t := TierChances(1.0 - runningTop, 1.0 - runningMid, 1.0 - runningBottom);
    ScannedEnd(s, runningTop, runningMid, runningBottom, cumulative, cumulativeBackup);
  }

  /**
   * The tiers partition the list in order; Top holds `n / 3` schools, Mid
   * one more when `n % 3 == 2`, Bottom the rest.
   */
  lemma {:induction false} TierSizes(s: seq<School>)
    ensures TierSlice(s, Top) + TierSlice(s, Mid) + TierSlice(s, Bottom) == s
    ensures |TierSlice(s, Top)| == |s| / 3
    ensures |TierSlice(s, Mid)| == |s| / 3 + (if |s| % 3 == 2 then 1 else 0)
    ensures |TierSlice(s, Bottom)| == |s| / 3 + (if |s| % 3 == 0 then 0 else 1)
  {
    var d, e := TierEnd(Top, |s|), TierEnd(Mid, |s|);
    TierBounds(Mid, |s|);
    assert s[0..d] + s[d..e] + s[e..|s|] == s;
  }

  /** Four schools split 1-1-2, as in the source's printed example. */
  lemma {:induction false} FourSchoolTiers()
    ensures TierOf(0, 4) == Top && TierOf(1, 4) == Mid
    ensures TierOf(2, 4) == Bottom && TierOf(3, 4) == Bottom
  {
  }

  /** Classification writes only the tier and the two cumulative chances. */
  lemma {:induction false} TieredFields(s: seq<School>, i: nat)
    requires i < |s|
    ensures Tiered(s)[i].(tier := s[i].tier, cumulative := s[i].cumulative,
                          cumulativeBackup := s[i].cumulativeBackup) == s[i]
    ensures Tiered(s)[i].tier == Some(TierOf(i, |s|))
  {
  }

  /** The two cumulative chances classification writes at position `i`. */
  lemma {:induction false} TieredCumulative(s: seq<School>, i: nat)
    requires i < |s|
    ensures Tiered(s)[i].cumulative == Some(1.0 - Running(MissOf(PrimaryMiss), s, i + 1))
    ensures Tiered(s)[i].cumulativeBackup == Some(1.0 - Running(MissOf(BackupMiss), s, i + 1))
  {
  }

  /**
   * With every chance in [0, 1] the cumulative chances are probabilities
   * that never decrease down the list.
   */
  lemma {:induction false} CumulativeMonotone(s: seq<School>, i: nat, j: nat)
    requires AllValidChances(s) && i <= j < |s|
    ensures 0.0 <= Tiered(s)[i].cumulative.value <= Tiered(s)[j].cumulative.value <= 1.0
  {
    var f := MissOf(PrimaryMiss);
    var atI, atJ := Running(f, s, i + 1), Running(f, s, j + 1);
    assert 0.0 <= atJ <= atI <= 1.0 by {
      MissUnit(PrimaryMiss, s);
      RunningMonotone(f, s, i + 1, j + 1);
    }
    TieredCumulative(s, i);
    TieredCumulative(s, j);
  }

  /** Counting the backup degree never lowers a school's cumulative chance. */
  lemma {:induction false} CumulativeBackupAbove(s: seq<School>, i: nat)
    requires AllValidChances(s) && i < |s|
    ensures Tiered(s)[i].cumulative.value <= Tiered(s)[i].cumulativeBackup.value <= 1.0
  {
    var p := s[..i + 1];
    assert AllValidChances(p) by {
      assert forall x :: 0 <= x < |p| ==> p[x] == s[x];
    }
    FailProductBounds(p);
    RunningIsPrefix(MissOf(PrimaryMiss), s, i + 1);
    RunningIsPrefix(MissOf(BackupMiss), s, i + 1);
  }

  /** The last school's cumulative chances are the chances of the whole list. */
  lemma {:induction false} CumulativeLast(s: seq<School>)
    requires |s| > 0
    ensures Tiered(s)[|s| - 1].cumulative == Some(1.0 - FailProduct(PrimaryMiss, s))
    ensures Tiered(s)[|s| - 1].cumulativeBackup == Some(1.0 - FailProduct(BackupMiss, s))
  {
    RunningIsPrefix(MissOf(PrimaryMiss), s, |s|);
    RunningIsPrefix(MissOf(BackupMiss), s, |s|);
    assert s[..|s|] == s;
  }

  /**
   * Classifying an already classified list changes nothing: the tiers
   * depend on positions only and the miss factors ignore the written fields.
   */
  lemma {:induction false} TieredIdempotent(s: seq<School>)
    ensures Tiered(Tiered(s)) == Tiered(s)
  {
    var r := Tiered(s);
    forall j | 0 <= j < |s|
      ensures MissOf(PrimaryMiss)(r[j]) == MissOf(PrimaryMiss)(s[j])
      ensures MissOf(BackupMiss)(r[j]) == MissOf(BackupMiss)(s[j])
    {
      MissSameChances(PrimaryMiss, r[j], s[j]);
      MissSameChances(BackupMiss, r[j], s[j]);
    }
    forall i: nat | i <= |s|
      ensures Running(MissOf(PrimaryMiss), r, i) == Running(MissOf(PrimaryMiss), s, i)
      ensures Running(MissOf(BackupMiss), r, i) == Running(MissOf(BackupMiss), s, i)
    {
      RunningPointwise(MissOf(PrimaryMiss), r, s, i);
      RunningPointwise(MissOf(BackupMiss), r, s, i);
    }
  }
}
