/**
 * `sorted(best, key=itemgetter('Rank'), reverse=True)`: a stable sort by
 * rank, highest first. Modelled as an insertion sort; stability means
 * schools of equal rank keep their relative order.
 */
module RankSort {
  import opened Schools

  /** Ranks never increase along `s`. */
  predicate SortedDesc(s: seq<School>) {
    forall i, j :: 0 <= i < j < |s| ==> s[i].rank >= s[j].rank
  }

  /** The schools of `s` whose rank is exactly `r`, in their order in `s`. */
  function WithRank(s: seq<School>, r: real): seq<School> {
    if s == [] then []
    else Picked(s[0], r) + WithRank(s[1..], r)
  }

  /** Places `x` before the first school of `t` whose rank is not above its own. */
  function InsertByRank(x: School, t: seq<School>): seq<School> {
    if t == [] || x.rank >= t[0].rank then [x] + t
    else [t[0]] + InsertByRank(x, t[1..])
  }

  /** The list sorted by descending rank, ties kept in input order: insertion sort from the back. */
  function SortByRankDesc(s: seq<School>): seq<School> {
    if s == [] then [] else InsertByRank(s[0], SortByRankDesc(s[1..]))
  }

  /** Inserting adds exactly `x`: the result is a permutation of `[x] + t`. */
  lemma {:induction false} InsertPerm(x: School, t: seq<School>)
    ensures multiset(InsertByRank(x, t)) == multiset{x} + multiset(t)
    ensures |InsertByRank(x, t)| == |t| + 1
  {
    if t != [] && x.rank < t[0].rank {
      var rest := InsertByRank(x, t[1..]);
      InsertPerm(x, t[1..]);
      calc {
        multiset(InsertByRank(x, t));
        { assert InsertByRank(x, t) == [t[0]] + rest; }
        multiset{t[0]} + multiset(rest);
        multiset{x} + (multiset{t[0]} + multiset(t[1..]));
        { assert t == [t[0]] + t[1..]; }
        multiset{x} + multiset(t);
      }
    }
  }

  /** Inserting into a list sorted by descending rank keeps it sorted. */
  lemma {:induction false} InsertSorted(x: School, t: seq<School>)
    requires SortedDesc(t)
    ensures SortedDesc(InsertByRank(x, t))
  {
    if t == [] || x.rank >= t[0].rank {
      ConsSorted(x, t);
    } else {
      var rest := InsertByRank(x, t[1..]);
      assert InsertByRank(x, t) == [t[0]] + rest;
      assert SortedDesc(rest) by {
        InsertSorted(x, t[1..]);
      }
      InsertPerm(x, t[1..]);
      HeadBound(x, t, rest);
      ConsSorted(t[0], rest);
    }
  }

  /** Every school of `rest`, which holds `x` and the tail of `t`, ranks no higher than the head of `t`. */
  lemma {:induction false} HeadBound(x: School, t: seq<School>, rest: seq<School>)
    requires SortedDesc(t) && t != [] && x.rank < t[0].rank
    requires multiset(rest) == multiset{x} + multiset(t[1..])
    ensures forall j :: 0 <= j < |rest| ==> t[0].rank >= rest[j].rank
  {
    forall j | 0 <= j < |rest| ensures t[0].rank >= rest[j].rank {
      assert rest[j] in multiset(rest);
      if rest[j] != x {
        assert rest[j] in multiset(t[1..]);
        var m :| 0 <= m < |t[1..]| && t[1..][m] == rest[j];
        assert t[m + 1] == rest[j];
      }
    }
  }

  /** A school ranking no lower than every school of a sorted list can go in front of it. */
  lemma {:induction false} ConsSorted(h: School, rest: seq<School>)
    requires SortedDesc(rest)
    requires forall j :: 0 <= j < |rest| ==> h.rank >= rest[j].rank
    ensures SortedDesc([h] + rest)
  {
    var l := [h] + rest;
    forall i, j | 0 <= i < j < |l| ensures l[i].rank >= l[j].rank {
      assert l[j] == rest[j - 1];
      if i > 0 {
        assert l[i] == rest[i - 1];
      }
    }
  }

  /** The sort yields ranks in non-increasing order. */
  lemma {:induction false} SortSorted(s: seq<School>)
    ensures SortedDesc(SortByRankDesc(s))
  {
    if s != [] {
      SortSorted(s[1..]);
      InsertSorted(s[0], SortByRankDesc(s[1..]));
    }
  }

  /** The sort returns a permutation of its input. */
  lemma {:induction false} SortPerm(s: seq<School>)
    ensures multiset(SortByRankDesc(s)) == multiset(s)
    ensures |SortByRankDesc(s)| == |s|
  {
    if s != [] {
      var t := SortByRankDesc(s[1..]);
      SortPerm(s[1..]);
      InsertPerm(s[0], t);
      assert s == [s[0]] + s[1..];
    }
  }

  /** The schools of rank `r` among `[h]`: `h` itself or nothing. */
  function Picked(h: School, r: real): seq<School> {
    if h.rank == r then [h] else []
  }

  /** Collecting rank-`r` schools distributes over putting one school in front. */
  lemma {:induction false} WithRankCons(h: School, t: seq<School>, r: real)
    ensures WithRank([h] + t, r) == Picked(h, r) + WithRank(t, r)
  {
    assert ([h] + t)[1..] == t;
  }

  /**
   * Inserting `x` moves it only past schools of strictly higher rank, so the
   * rank-`r` schools keep the order they have in `[x] + t`.
   */
  lemma {:induction false} InsertStable(x: School, t: seq<School>, r: real)
    ensures WithRank(InsertByRank(x, t), r) == WithRank([x] + t, r)
  {
    if t == [] || x.rank >= t[0].rank {
    } else {
      var rest := t[1..];
      var ins := InsertByRank(x, rest);
      calc {
        WithRank(InsertByRank(x, t), r);
        { assert InsertByRank(x, t) == [t[0]] + ins; }
        WithRank([t[0]] + ins, r);
        { WithRankCons(t[0], ins, r); }
        Picked(t[0], r) + WithRank(ins, r);
        { InsertStable(x, rest, r); WithRankCons(x, rest, r); }
        Picked(t[0], r) + (Picked(x, r) + WithRank(rest, r));
        { assert Picked(t[0], r) == [] || Picked(x, r) == []; }
        Picked(x, r) + (Picked(t[0], r) + WithRank(rest, r));
        { WithRankCons(t[0], rest, r); assert [t[0]] + rest == t; }
        Picked(x, r) + WithRank(t, r);
        { WithRankCons(x, t, r); }
        WithRank([x] + t, r);
      }
    }
  }

  /**
   * Stability: for every rank value, the schools of that rank appear in the
   * sorted list in the same order as in the input.
   */
  lemma {:induction false} SortStable(s: seq<School>, r: real)
    ensures WithRank(SortByRankDesc(s), r) == WithRank(s, r)
  {
    if s != [] {
      SortStable(s[1..], r);
      InsertStable(s[0], SortByRankDesc(s[1..]), r);
      assert ([s[0]] + SortByRankDesc(s[1..]))[1..] == SortByRankDesc(s[1..]);
    }
  }

  /** Sorting keeps every school's chances, so the sorted list can be scored too. */
  lemma {:induction false} SortKeepsChances(s: seq<School>)
    requires AllHaveChances(s)
    ensures AllHaveChances(SortByRankDesc(s))
    ensures AllValidChances(s) ==> AllValidChances(SortByRankDesc(s))
  {
    var t := SortByRankDesc(s);
    SortPerm(s);
    forall i | 0 <= i < |t| ensures t[i] in s {
      assert t[i] in multiset(t);
    }
  }

  /** Inserting a school multiplies the product of `t` by the school's own factor. */
  lemma {:induction false} InsertProduct(f: School -> real, x: School, t: seq<School>)
    ensures Prod(f, InsertByRank(x, t)) == f(x) * Prod(f, t)
  {
    if t == [] || x.rank >= t[0].rank {
      ProdCons(f, x, t);
    } else {
      var rest := t[1..];
      var ins := InsertByRank(x, rest);
      calc {
        Prod(f, InsertByRank(x, t));
        { assert InsertByRank(x, t) == [t[0]] + ins; }
        Prod(f, [t[0]] + ins);
        { ProdCons(f, t[0], ins); }
        f(t[0]) * Prod(f, ins);
        { InsertProduct(f, x, rest); SameProduct(f(t[0]), f(t[0]), Prod(f, ins), f(x) * Prod(f, rest)); }
        f(t[0]) * (f(x) * Prod(f, rest));
        { Rotate(f(t[0]), f(x), Prod(f, rest)); }
        f(x) * (f(t[0]) * Prod(f, rest));
        { ProdUncons(f, t); SameProduct(f(x), f(x), f(t[0]) * Prod(f, rest), Prod(f, t)); }
        f(x) * Prod(f, t);
      }
    }
  }

  /**
   * Products of miss factors do not depend on order, so the sorted winner
   * has the same combined chances as the combination it came from.
   */
  lemma {:induction false} SortProduct(f: School -> real, s: seq<School>)
    ensures Prod(f, SortByRankDesc(s)) == Prod(f, s)
  {
    if s != [] {
      SortProduct(f, s[1..]);
      InsertProduct(f, s[0], SortByRankDesc(s[1..]));
      ProdUncons(f, s);
    }
  }
}
