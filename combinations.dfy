/**
 * The enumeration `itertools.combinations(xs, k)`: every k-element
 * selection of positions of `xs`, each listed in increasing position
 * order, the selections themselves in lexicographic order of positions.
 */
module Combinations {

  /** `c` is a strictly increasing list of k positions drawn from [lo, n). */
  predicate IsCombination(c: seq<nat>, lo: nat, n: nat, k: nat) {
    && |c| == k
    && (forall i :: 0 <= i < |c| ==> lo <= c[i] < n)
    && (forall i, j :: 0 <= i < j < |c| ==> c[i] < c[j])
  }

  /** Strict lexicographic order on position lists. */
  predicate LexLess(a: seq<nat>, b: seq<nat>) {
    && |a| > 0 && |b| > 0
    && (a[0] < b[0] || (a[0] == b[0] && LexLess(a[1..], b[1..])))
  }

  /** Puts `x` in front of every list of `ss`. */
  function Prepend(x: nat, ss: seq<seq<nat>>): (r: seq<seq<nat>>)
    ensures |r| == |ss| && forall i :: 0 <= i < |ss| ==> r[i] == [x] + ss[i]
  {
    seq(|ss|, i requires 0 <= i < |ss| => [x] + ss[i])
  }

  /**
   * The k-element position selections from [lo, n) in the order the
   * source's library emits them: first those that take `lo`, then those
   * that skip it.
   */
  function Choose(lo: nat, n: nat, k: nat): seq<seq<nat>>
    decreases n - lo
  {
    if k == 0 then [[]]
    else if lo >= n then []
    else Prepend(lo, Choose(lo + 1, n, k - 1)) + Choose(lo + 1, n, k)
  }

  /** Binomial coefficient by Pascal's rule. */
  function Binomial(n: nat, k: nat): nat {
    if k == 0 then 1
    else if n == 0 then 0
    else Binomial(n - 1, k - 1) + Binomial(n - 1, k)
  }

  /** Every enumerated selection is a valid k-combination of [lo, n). */
  lemma {:induction false} ChooseSound(lo: nat, n: nat, k: nat)
    ensures forall i :: 0 <= i < |Choose(lo, n, k)| ==> IsCombination(Choose(lo, n, k)[i], lo, n, k)
    decreases n - lo
  {
    if k != 0 && lo < n {
      var a, b := Choose(lo + 1, n, k - 1), Choose(lo + 1, n, k);
      ChooseSound(lo + 1, n, k - 1);
      ChooseSound(lo + 1, n, k);
      var r := Choose(lo, n, k);
      assert r == Prepend(lo, a) + b;
      forall i | 0 <= i < |r|
        ensures IsCombination(r[i], lo, n, k)
      {
        if i < |a| {
          assert r[i] == [lo] + a[i];
          assert IsCombination(a[i], lo + 1, n, k - 1);
        } else {
          assert r[i] == b[i - |a|];
          assert IsCombination(b[i - |a|], lo + 1, n, k);
        }
      }
    }
  }

  /** Every k-combination of [lo, n) is enumerated. */
  lemma {:induction false} ChooseComplete(lo: nat, n: nat, k: nat, c: seq<nat>)
    requires IsCombination(c, lo, n, k)
    ensures c in Choose(lo, n, k)
    decreases n - lo
  {
    if k == 0 {
      assert c == [];
    } else {
      assert lo <= c[0] < n;
      var a, b := Choose(lo + 1, n, k - 1), Choose(lo + 1, n, k);
      assert Choose(lo, n, k) == Prepend(lo, a) + b;
      if c[0] == lo {
        assert c in Prepend(lo, a) by {
          TailCombination(c, lo, n, k);
          ChooseComplete(lo + 1, n, k - 1, c[1..]);
          InPrepend(lo, a, c[1..]);
        }
        InConcat(Prepend(lo, a), b, c);
      } else {
        assert c in b by {
          SkipCombination(c, lo, n, k);
          ChooseComplete(lo + 1, n, k, c);
        }
        InConcat(Prepend(lo, a), b, c);
      }
    }
  }

  /** A combination that skips `lo` is a combination of the rest. */
  lemma {:induction false} SkipCombination(c: seq<nat>, lo: nat, n: nat, k: nat)
    requires IsCombination(c, lo, n, k) && k > 0 && c[0] != lo
    ensures IsCombination(c, lo + 1, n, k)
  {
    forall i | 0 <= i < |c| ensures lo + 1 <= c[i] {
      if i > 0 {
        assert c[0] < c[i];
      }
    }
  }

  /** A member of either part is a member of the concatenation. */
  lemma {:induction false} InConcat(a: seq<seq<nat>>, b: seq<seq<nat>>, x: seq<nat>)
    requires x in a || x in b
    ensures x in a + b
  {
    if x in a {
      var i :| 0 <= i < |a| && a[i] == x;
      assert (a + b)[i] == x;
    } else {
      var i :| 0 <= i < |b| && b[i] == x;
      assert (a + b)[|a| + i] == x;
    }
  }

  /** A combination that takes `lo` is `lo` followed by a combination of the rest. */
  lemma {:induction false} TailCombination(c: seq<nat>, lo: nat, n: nat, k: nat)
    requires IsCombination(c, lo, n, k) && k > 0 && c[0] == lo
    ensures IsCombination(c[1..], lo + 1, n, k - 1) && c == [lo] + c[1..]
  {
    var tail := c[1..];
    forall i | 0 <= i < |tail| ensures lo + 1 <= tail[i] {
      assert c[0] < c[i + 1];
    }
  }

  /** Prepending keeps membership. */
  lemma {:induction false} InPrepend(x: nat, ss: seq<seq<nat>>, s: seq<nat>)
    requires s in ss
    ensures [x] + s in Prepend(x, ss)
  {
    var i :| 0 <= i < |ss| && ss[i] == s;
    assert Prepend(x, ss)[i] == [x] + s;
  }

  /** The enumeration is strictly increasing in lexicographic order, so it has no repeats. */
  lemma {:induction false} ChooseSorted(lo: nat, n: nat, k: nat)
    ensures forall i, j :: 0 <= i < j < |Choose(lo, n, k)| ==> LexLess(Choose(lo, n, k)[i], Choose(lo, n, k)[j])
    decreases n - lo
  {
    if k != 0 && lo < n {
      var a, b := Choose(lo + 1, n, k - 1), Choose(lo + 1, n, k);
      ChooseSorted(lo + 1, n, k - 1);
      ChooseSorted(lo + 1, n, k);
      ChooseSound(lo + 1, n, k);
      var r := Choose(lo, n, k);
      assert r == Prepend(lo, a) + b;
      forall i, j | 0 <= i < j < |r|
        ensures LexLess(r[i], r[j])
      {
        if j < |a| {
          assert r[i] == [lo] + a[i] && r[j] == [lo] + a[j];
          assert LexLess(a[i], a[j]);
          assert r[i][1..] == a[i] && r[j][1..] == a[j];
        } else if i < |a| {
          assert r[i] == [lo] + a[i];
          assert r[j] == b[j - |a|];
          assert IsCombination(b[j - |a|], lo + 1, n, k);
        } else {
          assert r[i] == b[i - |a|] && r[j] == b[j - |a|];
        }
      }
    }
  }

  /** There are exactly C(n - lo, k) selections. */
  lemma {:induction false} ChooseCount(lo: nat, n: nat, k: nat)
    requires lo <= n
    ensures |Choose(lo, n, k)| == Binomial(n - lo, k)
    decreases n - lo
  {
    if k != 0 && lo < n {
      ChooseCount(lo + 1, n, k - 1);
      ChooseCount(lo + 1, n, k);
    }
  }

  /** The elements of `xs` at positions `idx`, in that order. */
  function Select<T>(xs: seq<T>, idx: seq<nat>): (r: seq<T>)
    requires forall j :: 0 <= j < |idx| ==> idx[j] < |xs|
    ensures |r| == |idx| && forall j :: 0 <= j < |idx| ==> r[j] == xs[idx[j]]
  {
    seq(|idx|, j requires 0 <= j < |idx| => xs[idx[j]])
  }

  /**
   * `itertools.combinations(xs, k)`: the k-element sub-selections of
   * `xs`, in the order of `Choose(0, |xs|, k)`.
   */
  function Combos<T>(xs: seq<T>, k: nat): (r: seq<seq<T>>)
    ensures |r| == |Choose(0, |xs|, k)|
    ensures forall i :: 0 <= i < |r| ==>
      IsCombination(Choose(0, |xs|, k)[i], 0, |xs|, k) && r[i] == Select(xs, Choose(0, |xs|, k)[i])
  {
    var cs := Choose(0, |xs|, k);
    ChooseSound(0, |xs|, k);
    seq(|cs|, i requires 0 <= i < |cs| => Select(xs, cs[i]))
  }
}
