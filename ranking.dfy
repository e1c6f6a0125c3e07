/** Per-store aggregates (`GROUP BY s.id` over stores LEFT JOIN ratings) and the
    top-stores ranking of the statistics endpoint:
    `HAVING COUNT(r.id) > 0 ORDER BY AVG(r.rating) DESC, COUNT(r.id) DESC LIMIT 5`.
    Averages are compared exactly, by cross-multiplying the integer sums and counts. */
module Ranking {
  import opened Common
  import opened Tables

  /** One row of the grouped query: a store's id, `COUNT(r.id)` and `SUM(r.rating)`. */
  datatype Summary = Summary(storeId: int, count: nat, sum: int)

  /** The grouped aggregate for each store, in table order. */
  function Summarize(stores: seq<Store>, rs: seq<Rating>): (r: seq<Summary>)
    ensures |r| == |stores|
    ensures forall i :: 0 <= i < |r| ==> r[i].storeId == stores[i].id
    ensures forall i :: 0 <= i < |r| ==>
      r[i].count == |OfStore(rs, stores[i].id)| && r[i].sum == Sum(OfStore(rs, stores[i].id))
  {
    seq(|stores|, i requires 0 <= i < |stores| =>
      Summary(stores[i].id, |OfStore(rs, stores[i].id)|, Sum(OfStore(rs, stores[i].id))))
  }

  /** `x` is store `s`'s true aggregate over the ratings `rs`. */
  predicate SummaryOf(x: Summary, s: Store, rs: seq<Rating>)
  {
    x.storeId == s.id && x.count == |OfStore(rs, s.id)| && x.sum == Sum(OfStore(rs, s.id))
  }

  /** Every summary is the true aggregate of some store of the table. */
  lemma SummarizeTrue(stores: seq<Store>, rs: seq<Rating>)
    ensures forall x :: x in Summarize(stores, rs) ==> exists s :: s in stores && SummaryOf(x, s, rs)
  {
    var sums := Summarize(stores, rs);
    forall x | x in sums ensures exists s :: s in stores && SummaryOf(x, s, rs) {
      var i :| 0 <= i < |sums| && sums[i] == x;
      assert stores[i] in stores && SummaryOf(x, stores[i], rs);
    }
  }

  predicate Rated(x: Summary) { x.count > 0 }

  /** `a`'s average is at least `b`'s: sum_a / count_a >= sum_b / count_b. */
  predicate AvgAtLeast(a: Summary, b: Summary)
  {
    a.sum * b.count >= b.sum * a.count
  }

  /** `a` may be listed before `b`: a higher average, or the same average and at least as many ratings. */
  predicate RanksAtLeast(a: Summary, b: Summary)
  {
    a.sum * b.count > b.sum * a.count || (a.sum * b.count == b.sum * a.count && a.count >= b.count)
  }

  lemma MulPos(x: int, y: int, c: int)
    requires c > 0
    ensures x <= y <==> x * c <= y * c
    ensures x < y <==> x * c < y * c
  {
    if x <= y {
      assert y * c - x * c == (y - x) * c;
    } else {
      assert x * c - y * c == (x - y) * c;
    }
  }

  /** Comparing averages by cross-multiplication is transitive, and strictly so when either step is strict. */
  lemma {:induction false} AvgTransitive(a: Summary, b: Summary, c: Summary)
    requires Rated(a) && Rated(b) && Rated(c)
    requires AvgAtLeast(a, b) && AvgAtLeast(b, c)
    ensures AvgAtLeast(a, c)
    ensures a.sum * b.count > b.sum * a.count || b.sum * c.count > c.sum * b.count ==>
      a.sum * c.count > c.sum * a.count
  {
    var A, B, C := a.sum, b.sum, c.sum;
    var ca, cb, cc := a.count as int, b.count as int, c.count as int;
    MulPos(B * ca, A * cb, cc);
    MulPos(C * cb, B * cc, ca);
    assert B * ca * cc == B * cc * ca;
    assert A * cb * cc == (A * cc) * cb;
    assert C * cb * ca == (C * ca) * cb;
    MulPos(C * ca, A * cc, cb);
  }

  lemma RanksTransitive(a: Summary, b: Summary, c: Summary)
    requires Rated(a) && Rated(b) && Rated(c)
    requires RanksAtLeast(a, b) && RanksAtLeast(b, c)
    ensures RanksAtLeast(a, c)
  {
    AvgTransitive(a, b, c);
    if a.sum * c.count == c.sum * a.count {
      // neither step was strict, so the counts decide
      assert a.sum * b.count == b.sum * a.count && b.sum * c.count == c.sum * b.count;
    }
  }

  lemma RanksTotal(a: Summary, b: Summary)
    ensures RanksAtLeast(a, b) || RanksAtLeast(b, a)
  {
  }

  predicate AllRated(s: seq<Summary>)
  {
    forall x :: x in s ==> Rated(x)
  }

  predicate SortedByRank(s: seq<Summary>)
  {
    forall i, j :: 0 <= i < j < |s| ==> RanksAtLeast(s[i], s[j])
  }

  /** `HAVING COUNT(r.id) > 0`, in table order. */
  function RatedOnly(xs: seq<Summary>): (r: seq<Summary>)
    ensures AllRated(r)
    ensures forall x :: x in xs && Rated(x) ==> x in r
    ensures multiset(r) <= multiset(xs)
    ensures forall x :: multiset(r)[x] == if Rated(x) then multiset(xs)[x] else 0
  {
    if xs == [] then []
    else
      var rest := RatedOnly(xs[1..]);
      assert xs == [xs[0]] + xs[1..];
      assert multiset(xs) == multiset{xs[0]} + multiset(xs[1..]);
      if Rated(xs[0]) then [xs[0]] + rest else rest
  }

  /** Insert `x` into a ranked list, after every entry that ranks strictly above it. */
  function Insert(x: Summary, s: seq<Summary>): (r: seq<Summary>)
    ensures multiset(r) == multiset(s) + multiset{x}
    ensures |r| == |s| + 1
  {
    if s == [] then [x]
    else if RanksAtLeast(x, s[0]) then [x] + s
    else
      assert s == [s[0]] + s[1..];
      [s[0]] + Insert(x, s[1..])
  }

  /** The ranking `ORDER BY AVG DESC, COUNT DESC` (insertion sort). */
  function Rank(xs: seq<Summary>): (r: seq<Summary>)
    ensures multiset(r) == multiset(xs)
  {
    if xs == [] then []
    else
      assert xs == [xs[0]] + xs[1..];
      Insert(xs[0], Rank(xs[1..]))
  }

  lemma {:induction false} InsertSorted(x: Summary, s: seq<Summary>)
    requires Rated(x) && AllRated(s) && SortedByRank(s)
    ensures SortedByRank(Insert(x, s))
  {
    if s == [] {
    } else if RanksAtLeast(x, s[0]) {
      var r := [x] + s;
      forall i, j | 0 <= i < j < |r| ensures RanksAtLeast(r[i], r[j]) {
        if i == 0 && j > 1 {
          assert s[0] in s && s[j - 1] in s;
          RanksTransitive(x, s[0], s[j - 1]);
        }
      }
    } else {
      RanksTotal(x, s[0]);
      var tail := s[1..];
      assert AllRated(tail) && SortedByRank(tail) by {
        forall y | y in tail ensures y in s { }
      }
      InsertSorted(x, tail);
      var ins := Insert(x, tail);
      var r := [s[0]] + ins;
      forall k | 0 <= k < |ins| ensures RanksAtLeast(s[0], ins[k]) {
        assert ins[k] in multiset(ins);
        if ins[k] != x {
          assert ins[k] in multiset(tail);
          var m :| 0 <= m < |tail| && tail[m] == ins[k];
          assert s[m + 1] == ins[k];
        }
      }
    }
  }

  lemma {:induction false} RankSorted(xs: seq<Summary>)
    requires AllRated(xs)
    ensures SortedByRank(Rank(xs)) && AllRated(Rank(xs))
  {
    if xs != [] {
      assert xs[0] in xs;
      assert AllRated(xs[1..]) by {
        forall y | y in xs[1..] ensures y in xs { }
      }
      RankSorted(xs[1..]);
      InsertSorted(xs[0], Rank(xs[1..]));
      forall y | y in Rank(xs) ensures Rated(y) {
        assert y in multiset(Rank(xs));
        assert y in multiset(xs);
      }
    }
  }

  /** The top stores: rated stores only, best ranked first, at most five. */
  function TopStores(xs: seq<Summary>): seq<Summary>
  {
    var ranked := Rank(RatedOnly(xs));
    ranked[..Min(5, |ranked|)]
  }

  /** Every entry after the first `k` of a ranked list ranks no higher than entry `k - 1`. */
  lemma {:induction false} RestRanksBelow(ranked: seq<Summary>, k: nat)
    requires SortedByRank(ranked) && 0 < k <= |ranked|
    ensures forall x :: x in multiset(ranked) - multiset(ranked[..k]) ==> RanksAtLeast(ranked[k - 1], x)
  {
    assert ranked == ranked[..k] + ranked[k..];
    assert multiset(ranked) == multiset(ranked[..k]) + multiset(ranked[k..]);
    forall x | x in multiset(ranked) - multiset(ranked[..k]) ensures RanksAtLeast(ranked[k - 1], x) {
      assert x in multiset(ranked[k..]);
      var m :| 0 <= m < |ranked[k..]| && ranked[k..][m] == x;
      assert ranked[k + m] == x;
    }
  }

  /** The ranking of the rated stores keeps their number and is sorted. */
  lemma RankedRated(xs: seq<Summary>)
    ensures var rated := RatedOnly(xs);
      |Rank(rated)| == |rated| && SortedByRank(Rank(rated)) && AllRated(Rank(rated))
  {
    var rated := RatedOnly(xs);
    RankSorted(rated);
    assert |multiset(Rank(rated))| == |multiset(rated)|;
  }

  /** Every ranked entry is a rated store of the input. */
  lemma RankedMembers(xs: seq<Summary>)
    ensures forall x :: x in Rank(RatedOnly(xs)) ==> x in xs && Rated(x)
  {
    var rated := RatedOnly(xs);
    forall x | x in Rank(rated) ensures x in xs && Rated(x) {
      assert x in multiset(Rank(rated));
      assert x in multiset(rated);
      assert x in multiset(xs);
    }
  }

  /** A prefix of a ranked list is ranked and holds some of its entries. */
  lemma PrefixRanked(ranked: seq<Summary>, k: nat)
    requires SortedByRank(ranked) && k <= |ranked|
    ensures SortedByRank(ranked[..k]) && multiset(ranked[..k]) <= multiset(ranked)
  {
    assert ranked == ranked[..k] + ranked[k..];
  }

  /** The top stores are rated stores of the input, in ranking order, as many as there are up
      to five; every rated store left out ranks no higher than the last one listed. */
  lemma TopStoresSpec(xs: seq<Summary>)
    ensures var top := TopStores(xs);
      && |top| == Min(5, |RatedOnly(xs)|)
      && (forall x :: x in top ==> x in xs && Rated(x))
      && SortedByRank(top)
      && multiset(top) <= multiset(RatedOnly(xs))
      && (top == [] <==> RatedOnly(xs) == [])
      && (top != [] ==> forall x :: x in multiset(RatedOnly(xs)) - multiset(top) ==> RanksAtLeast(top[|top| - 1], x))
  {
    var rated := RatedOnly(xs);
    var ranked := Rank(rated);
    RankedRated(xs);
    var k := Min(5, |ranked|);
    var top := ranked[..k];
    PrefixRanked(ranked, k);
    RankedMembers(xs);
    assert forall x :: x in top ==> x in ranked;
    if k > 0 {
      RestRanksBelow(ranked, k);
    }
  }
}
