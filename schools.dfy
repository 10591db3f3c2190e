/**
 * The candidate-school record shared by the chance estimator and the
 * portfolio optimizer, and the per-school "miss" factors (probability of
 * NOT being admitted) whose products the optimizer and the tier classifier
 * accumulate.
 */
module Schools {

  datatype Option<T> = None | Some(value: T)

  /** The two degrees a school record can offer. */
  datatype Degree = PhD | MS

  /** The three rank-ordered partitions of a winning combination. */
  datatype Tier = Top | Mid | Bottom

  /**
   * One candidate school. In the source this is a dictionary that later
   * stages extend with new keys; a key that has not been written yet is
   * `None` here. `phd` and `ms` stand for the flags being "Yes".
   */
  datatype School = School(
    name: string,
    rank: real,
    phd: bool,
    ms: bool,
    phdChance: Option<real>,
    msChance: Option<real>,
    tier: Option<Tier>,
    cumulative: Option<real>,
    cumulativeBackup: Option<real>)

  /** The school offers `d` (its flag for that degree is "Yes"). */
  predicate Offers(s: School, d: Degree) {
    match d
    case PhD => s.phd
    case MS => s.ms
  }

  /** Every offered degree has its chance written; reading it otherwise is a missing key. */
  predicate HasChances(s: School) {
    (s.phd ==> s.phdChance.Some?) && (s.ms ==> s.msChance.Some?)
  }

  /** Every chance that is present lies in [0, 1]. */
  predicate ValidChances(s: School) {
    && HasChances(s)
    && (s.phd ==> 0.0 <= s.phdChance.value <= 1.0)
    && (s.ms ==> 0.0 <= s.msChance.value <= 1.0)
  }

  /** Every school of `c` has its offered chances written. */
  predicate AllHaveChances(c: seq<School>) {
    forall i :: 0 <= i < |c| ==> HasChances(c[i])
  }

  /** Every school of `c` has its chances written, each in [0, 1]. */
  predicate AllValidChances(c: seq<School>) {
    forall i :: 0 <= i < |c| ==> ValidChances(c[i])
  }

  /** PhD chance, 0 when the PhD is not sought. */
  function PhdChance(s: School): real {
    if s.phd && s.phdChance.Some? then s.phdChance.value else 0.0
  }

  /** MS chance, 0 when the MS is not sought. */
  function MsChance(s: School): real {
    if s.ms && s.msChance.Some? then s.msChance.value else 0.0
  }

  /** The chance of the degree actually sought: the PhD when flagged, else the MS. */
  function Primary(s: School): real {
    if s.phd then PhdChance(s) else MsChance(s)
  }

  /**
   * Which miss factor a running product multiplies in. With `backup` the
   * factor is `1 - (phd + (1 - phd) * ms * mod)`, the probability of missing
   * both degrees; without it `1 - primary * mod`. The unmodified products
   * use `mod == 1`.
   */
  datatype Factor = Factor(backup: bool, mod: real)

  const PrimaryMiss := Factor(false, 1.0)
  const BackupMiss := Factor(true, 1.0)

  /** The miss factor of kind `k` for school `s`. */
  function Miss(k: Factor, s: School): real {
    var first := if k.backup then PhdChance(s) else 0.0;
    var second := if k.backup then MsChance(s) else Primary(s);
    1.0 - (first + (1.0 - first) * second * k.mod)
  }

  /** The miss factor of kind `k`, as a function value. */
  function MissOf(k: Factor): School -> real {
    s => Miss(k, s)
  }

  /** `f` multiplied over `c`, folded left to right. */
  function Prod<T>(f: T -> real, c: seq<T>): real {
    if c == [] then 1.0 else Prod(f, c[..|c| - 1]) * f(c[|c| - 1])
  }

  /** The product of the miss factors of `c`, as the source's running products compute it. */
  function FailProduct(k: Factor, c: seq<School>): real {
    Prod(MissOf(k), c)
  }

  /** `f` multiplied over the first `i` elements of `s`, one position at a time. */
  function Running<T>(f: T -> real, s: seq<T>, i: nat): real
    requires i <= |s|
  {
    if i == 0 then 1.0 else Running(f, s, i - 1) * f(s[i - 1])
  }

  /** Multiplying in position by position gives the product over the prefix. */
  lemma {:induction false} RunningIsPrefix<T>(f: T -> real, s: seq<T>, i: nat)
    requires i <= |s|
    ensures Running(f, s, i) == Prod(f, s[..i])
  {
    if i > 0 {
      RunningIsPrefix(f, s, i - 1);
      assert s[..i][..i - 1] == s[..i - 1];
      SameProduct(Running(f, s, i - 1), Prod(f, s[..i - 1]), f(s[i - 1]), f(s[..i][i - 1]));
    }
  }

  /** Multiplying in the factor at position `i` advances the running product by one element. */
  lemma {:induction false} RunningExtend<T>(f: T -> real, s: seq<T>, i: nat, acc: real, x: real)
    requires i < |s| && acc == Running(f, s, i) && x == f(s[i])
    ensures acc * x == Running(f, s, i + 1)
  {
  }

  /** Lists whose factors agree position by position have the same running products. */
  lemma {:induction false} RunningPointwise<T>(f: T -> real, a: seq<T>, b: seq<T>, i: nat)
    requires i <= |a| == |b|
    requires forall j :: 0 <= j < |a| ==> f(a[j]) == f(b[j])
    ensures Running(f, a, i) == Running(f, b, i)
  {
    if i > 0 {
      RunningPointwise(f, a, b, i - 1);
      SameProduct(Running(f, a, i - 1), Running(f, b, i - 1), f(a[i - 1]), f(b[i - 1]));
    }
  }

  /** With every factor in [0, 1], a running product stays in [0, 1] and only shrinks as it goes on. */
  lemma {:induction false} RunningMonotone<T>(f: T -> real, s: seq<T>, i: nat, j: nat)
    requires forall x :: 0 <= x < |s| ==> 0.0 <= f(s[x]) <= 1.0
    requires i <= j <= |s|
    ensures 0.0 <= Running(f, s, j) <= Running(f, s, i) <= 1.0
    decreases j, i
  {
    if i == j {
      if i > 0 {
        RunningMonotone(f, s, 0, i);
      }
    } else {
      RunningMonotone(f, s, i, j - 1);
      RunningExtend(f, s, j - 1, Running(f, s, j - 1), f(s[j - 1]));
      Shrink(Running(f, s, j), Running(f, s, j - 1), f(s[j - 1]));
    }
  }

  /** Equal factors give equal products. */
  lemma {:induction false} SameProduct(a: real, b: real, x: real, y: real)
    requires a == b && x == y
    ensures a * x == b * y
  {
  }

  /** The factors are exactly the source's four running-product updates. */
  lemma {:induction false} MissFormulas(s: School, mod: real)
    ensures Miss(Factor(false, mod), s) == 1.0 - Primary(s) * mod
    ensures Miss(Factor(true, mod), s) == 1.0 - (PhdChance(s) + (1.0 - PhdChance(s)) * MsChance(s) * mod)
    ensures Miss(PrimaryMiss, s) == 1.0 - Primary(s)
    ensures Miss(BackupMiss, s) == 1.0 - (PhdChance(s) + (1.0 - PhdChance(s)) * MsChance(s))
  {
  }

  /**
   * The backup-inclusive miss factor is the product of the two independent
   * misses, so missing both degrees is never likelier than missing the
   * primary one; both lie in [0, 1] when the chances do.
   */
  lemma {:induction false} MissBounds(s: School)
    requires ValidChances(s)
    ensures Miss(BackupMiss, s) == (1.0 - PhdChance(s)) * (1.0 - MsChance(s))
    ensures 0.0 <= Miss(BackupMiss, s) <= Miss(PrimaryMiss, s) <= 1.0
  {
    var phd, ms := PhdChance(s), MsChance(s);
    MissFormulas(s, 1.0);
    assert s.phd ==> Primary(s) == phd;
    assert !s.phd ==> phd == 0.0 && Primary(s) == ms;
    BothMissBounds(phd, ms);
    BackupBelowPrimary(phd, ms, Primary(s));
  }

  /** When the primary chance is the PhD one, or the MS one with no PhD sought, missing both is no likelier than missing it. */
  lemma {:induction false} BackupBelowPrimary(phd: real, ms: real, primary: real)
    requires 0.0 <= phd <= 1.0 && 0.0 <= ms <= 1.0
    requires primary == phd || (phd == 0.0 && primary == ms)
    ensures (1.0 - phd) * (1.0 - ms) <= 1.0 - primary
  {
    BothMissBounds(phd, ms);
    if primary != phd {
      assert phd == 0.0 && primary == ms;
    }
  }

  /** The backup-inclusive factor is the product of the two misses, within [0, 1] and below the PhD miss. */
  lemma {:induction false} BothMissBounds(phd: real, ms: real)
    requires 0.0 <= phd <= 1.0 && 0.0 <= ms <= 1.0
    ensures 1.0 - (phd + (1.0 - phd) * ms) == (1.0 - phd) * (1.0 - ms)
    ensures 0.0 <= (1.0 - phd) * (1.0 - ms) <= 1.0 - phd <= 1.0
    ensures phd == 0.0 ==> (1.0 - phd) * (1.0 - ms) == 1.0 - ms
  {
    MulMono(1.0 - phd, 1.0 - phd, 1.0 - ms, 1.0);
    MulMono(0.0, 1.0 - phd, 0.0, 1.0 - ms);
  }

  /** Products of non-negative ordered factors are ordered. */
  lemma {:induction false} MulMono(a: real, b: real, x: real, y: real)
    requires 0.0 <= a <= b && 0.0 <= x <= y
    ensures a * x <= b * y
  {
    assert a * x <= b * x;
    assert b * x <= b * y;
  }

  /** Factors ordered pointwise within [0, 1] give products ordered the same way. */
  lemma {:induction false} OrderedProds<T>(f: T -> real, g: T -> real, c: seq<T>)
    requires forall i :: 0 <= i < |c| ==> 0.0 <= g(c[i]) <= f(c[i]) <= 1.0
    ensures 0.0 <= Prod(g, c) <= Prod(f, c) <= 1.0
  {
    if c != [] {
      var init, last := c[..|c| - 1], c[|c| - 1];
      assert 0.0 <= Prod(g, init) <= Prod(f, init) <= 1.0 by {
        assert forall i :: 0 <= i < |init| ==> init[i] == c[i];
        OrderedProds(f, g, init);
      }
      OrderedProducts(Prod(g, init), Prod(f, init), g(last), f(last));
    }
  }

  /**
   * With every chance in [0, 1] the products are probabilities and the
   * backup-inclusive product never exceeds the primary one; hence
   * `chance = 1 - FailProduct(PrimaryMiss, c)` and
   * `total = 1 - FailProduct(BackupMiss, c)` satisfy 0 <= chance <= total <= 1.
   */
  lemma {:induction false} FailProductBounds(c: seq<School>)
    requires AllValidChances(c)
    ensures 0.0 <= FailProduct(BackupMiss, c) <= FailProduct(PrimaryMiss, c) <= 1.0
  {
    forall i | 0 <= i < |c|
      ensures 0.0 <= MissOf(BackupMiss)(c[i]) <= MissOf(PrimaryMiss)(c[i]) <= 1.0
    {
      MissBounds(c[i]);
    }
    OrderedProds(MissOf(PrimaryMiss), MissOf(BackupMiss), c);
  }

  /** Products of ordered factors in [0, 1] are ordered and stay in [0, 1]. */
  lemma {:induction false} OrderedProducts(a: real, b: real, x: real, y: real)
    requires 0.0 <= a <= b <= 1.0 && 0.0 <= x <= y <= 1.0
    ensures 0.0 <= a * x <= b * y <= 1.0
  {
    MulMono(a, b, x, y);
    MulMono(0.0, a, 0.0, x);
    MulMono(b, 1.0, y, 1.0);
  }

  /** The product over a concatenation is the product of the two products. */
  lemma {:induction false} ProdAppend<T>(f: T -> real, a: seq<T>, b: seq<T>)
    ensures Prod(f, a + b) == Prod(f, a) * Prod(f, b)
  {
    if b != [] {
      var b', last := b[..|b| - 1], b[|b| - 1];
      assert (a + b)[..|a + b| - 1] == a + b';
      assert (a + b)[|a + b| - 1] == last;
      ProdAppend(f, a, b');
    } else {
      assert a + b == a;
    }
  }

  /** Putting an element in front multiplies the product by its factor. */
  lemma {:induction false} ProdCons<T>(f: T -> real, x: T, t: seq<T>)
    ensures Prod(f, [x] + t) == f(x) * Prod(f, t)
  {
    ProdAppend(f, [x], t);
    assert [x][..0] == [];
  }

  /** A non-empty product is its head's factor times the product of the tail. */
  lemma {:induction false} ProdUncons<T>(f: T -> real, t: seq<T>)
    requires t != []
    ensures Prod(f, t) == f(t[0]) * Prod(f, t[1..])
  {
    assert t == [t[0]] + t[1..];
    ProdCons(f, t[0], t[1..]);
  }

  /** Appending an element multiplies the product by its factor. */
  lemma {:induction false} ProdSnoc<T>(f: T -> real, t: seq<T>, x: T)
    ensures Prod(f, t + [x]) == Prod(f, t) * f(x)
  {
    assert (t + [x])[..|t|] == t;
  }

  /** Two factors of a product of three can trade places. */
  lemma {:induction false} Rotate(a: real, b: real, c: real)
    ensures a * (b * c) == b * (a * c)
  {
  }

  /** Multiplying a value in [0, 1] by a factor in [0, 1] keeps it in [0, 1] and does not raise it. */
  lemma {:induction false} Shrink(product: real, a: real, x: real)
    requires product == a * x && 0.0 <= a <= 1.0 && 0.0 <= x <= 1.0
    ensures 0.0 <= product <= a <= 1.0
  {
    MulMono(a, a, x, 1.0);
    MulMono(0.0, a, 0.0, x);
    assert a * x <= a * 1.0 == a;
  }

  /** The miss factors read only the degree flags and the two chances. */
  lemma {:induction false} MissSameChances(k: Factor, x: School, y: School)
    requires x.phd == y.phd && x.ms == y.ms && x.phdChance == y.phdChance && x.msChance == y.msChance
    ensures Miss(k, x) == Miss(k, y)
  {
  }

  /** Both kinds of miss factor lie in [0, 1] at every position of a list with valid chances. */
  lemma {:induction false} MissUnit(k: Factor, c: seq<School>)
    requires AllValidChances(c) && (k == PrimaryMiss || k == BackupMiss)
    ensures forall i :: 0 <= i < |c| ==> 0.0 <= MissOf(k)(c[i]) <= 1.0
  {
    forall i | 0 <= i < |c|
      ensures 0.0 <= MissOf(k)(c[i]) <= 1.0
    {
      MissBounds(c[i]);
    }
  }

  /** The source's per-school arithmetic computes exactly the two miss factors. */
  lemma {:induction false} SourceMisses(x: School, phd: real, ms: real)
    requires HasChances(x)
    requires phd == (if x.phd then x.phdChance.value else 0.0)
    requires ms == (if x.ms then x.msChance.value else 0.0)
    ensures Miss(PrimaryMiss, x) == (if x.phd then 1.0 - phd else 1.0 - ms)
    ensures Miss(BackupMiss, x) == 1.0 - (phd + (1.0 - phd) * ms)
  {
    MissFormulas(x, 1.0);
  }

  /** The same for the adjusted factors, with the chance modifier `mod`. */
  lemma {:induction false} SourceModMisses(x: School, phd: real, ms: real, mod: real)
    requires HasChances(x)
    requires phd == (if x.phd then x.phdChance.value else 0.0)
    requires ms == (if x.ms then x.msChance.value else 0.0)
    ensures Miss(Factor(false, mod), x) == (if x.phd then 1.0 - phd * mod else 1.0 - ms * mod)
    ensures Miss(Factor(true, mod), x) == 1.0 - (phd + (1.0 - phd) * ms * mod)
  {
    MissFormulas(x, mod);
  }

  /** One more school multiplies a running product over s[lo..hi] by that school's factor. */
  lemma {:induction false} ExtendProduct(k: Factor, s: seq<School>, lo: nat, hi: nat, acc: real, miss: real)
    requires lo <= hi < |s|
    requires acc == FailProduct(k, s[lo..hi]) && miss == Miss(k, s[hi])
    ensures acc * miss == FailProduct(k, s[lo..hi + 1])
  {
    assert s[lo..hi + 1] == s[lo..hi] + [s[hi]];
    ProdSnoc(MissOf(k), s[lo..hi], s[hi]);
  }

  /** A product over s[lo..hi + 1] is the one over s[lo..hi] times the factor at hi. */
  lemma {:induction false} SliceSnoc<T>(f: T -> real, s: seq<T>, lo: nat, hi: nat)
    requires lo <= hi < |s|
    ensures Prod(f, s[lo..hi + 1]) == Prod(f, s[lo..hi]) * f(s[hi])
  {
    assert s[lo..hi + 1] == s[lo..hi] + [s[hi]];
    ProdSnoc(f, s[lo..hi], s[hi]);
  }

}
