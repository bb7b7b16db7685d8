/**
 * What the nine hand categories mean, stated directly on the multiplicities
 * of the five ranks and on runs of consecutive ranks, independently of how
 * the evaluators compute them (grouping, sorting the groups, sliding a
 * window over the distinct ranks). The lemmas here show that the tests the
 * evaluators perform on the ordered groups and on the straight window agree
 * with these definitions.
 */
module Categories {
  import opened Wrappers
  import opened RankAnalysis

  /** The wheel A-5-4-3-2 in descending order on a rank scale whose 2 is `deuce`. */
  function Wheel(deuce: int): seq<int> {
    [deuce + 12, deuce + 3, deuce + 2, deuce + 1, deuce]
  }

  /**
   * The high card of a straight among five descending ranks: five distinct
   * consecutive ranks, or the wheel, which counts as 5-high.
   */
  function RunHigh(ranks: seq<int>, deuce: int): Option<int>
    requires |ranks| == 5
  {
    if ranks == Wheel(deuce) then Some(deuce + 3)
    else if Decreasing(ranks) && ranks[0] - ranks[4] == 4 then Some(ranks[0])
    else None
  }

  /** Some rank occurs exactly `k` times. */
  predicate HasCount(s: seq<int>, k: nat) {
    exists x :: x in s && Count(s, x) == k
  }

  /** Two different ranks occur exactly twice each. */
  predicate HasTwoPairs(s: seq<int>) {
    exists x, y :: x in s && y in s && x != y && Count(s, x) == 2 && Count(s, y) == 2
  }

  /**
   * The category of five descending ranks, 8 (straight flush) down to
   * 0 (high card), by the usual precedence of poker hands.
   */
  function Category(ranks: seq<int>, flush: bool, deuce: int): (c: int)
    requires |ranks| == 5
    ensures 0 <= c <= 8
  {
    var straight := RunHigh(ranks, deuce).Some?;
    if straight && flush then 8
    else if HasCount(ranks, 4) then 7
    else if HasCount(ranks, 3) && HasCount(ranks, 2) then 6
    else if flush then 5
    else if straight then 4
    else if HasCount(ranks, 3) then 3
    else if HasTwoPairs(ranks) then 2
    else if HasCount(ranks, 2) then 1
    else 0
  }

  /** The name both evaluators give each category. */
  function CategoryName(category: int): string {
    match category
    case 8 => "Straight Flush"
    case 7 => "Four of a Kind"
    case 6 => "Full House"
    case 5 => "Flush"
    case 4 => "Straight"
    case 3 => "Three of a Kind"
    case 2 => "Two Pair"
    case 1 => "One Pair"
    case _ => "High Card"
  }

  // ---------------------------------------------------------------------
  // The straight test

  /** Five descending ranks containing every rank of the wheel are the wheel. */
  lemma WheelExact(ranks: seq<int>, deuce: int)
    requires |ranks| == 5 && NonIncreasing(ranks)
    requires forall k :: 0 <= k < 5 ==> Wheel(deuce)[k] in ranks
    ensures ranks == Wheel(deuce)
  {
    var w := Wheel(deuce);
    var i0 :| 0 <= i0 < 5 && ranks[i0] == w[0];
    var i1 :| 0 <= i1 < 5 && ranks[i1] == w[1];
    var i2 :| 0 <= i2 < 5 && ranks[i2] == w[2];
    var i3 :| 0 <= i3 < 5 && ranks[i3] == w[3];
    var i4 :| 0 <= i4 < 5 && ranks[i4] == w[4];
    assert i0 < i1 < i2 < i3 < i4;
  }

  /** On five distinct ranks the wheel test holds exactly for the wheel. */
  lemma WheelTest(ranks: seq<int>, deuce: int)
    requires |ranks| == 5 && Decreasing(ranks)
    ensures (deuce + 12 in ranks && deuce + 3 in ranks && deuce + 2 in ranks
             && deuce + 1 in ranks && deuce in ranks) <==> ranks == Wheel(deuce)
  {
    if deuce + 12 in ranks && deuce + 3 in ranks && deuce + 2 in ranks
       && deuce + 1 in ranks && deuce in ranks {
      WheelExact(ranks, deuce);
    }
  }

  /** On five distinct ranks only the single window is inspected. */
  lemma WindowOfFive(u: seq<int>)
    requires |u| == 5
    ensures WindowStraight(u, 0) == if u[0] - u[4] == 4 then Some(u[0]) else None
  {
    assert WindowStraight(u, 1) == None;
  }

  /** The window-and-wheel test computes the high card of the run, if any. */
  lemma StraightAgrees(ranks: seq<int>, deuce: int)
    requires |ranks| == 5 && NonIncreasing(ranks)
    ensures StraightHigh(ranks, deuce) == RunHigh(ranks, deuce)
  {
    assert Decreasing(Wheel(deuce));
    if |Dedup(ranks)| >= 5 {
      DedupFull(ranks);
      WheelTest(ranks, deuce);
      WindowOfFive(ranks);
    } else if Decreasing(ranks) {
      DedupOfDecreasing(ranks);
    }
  }

  // ---------------------------------------------------------------------
  // The tests on the ordered (rank, count) groups

  /** A rank occurs at most as often as the hand is long. */
  lemma CountBound(s: seq<int>, x: int)
    ensures Count(s, x) <= |s|
  {
    CountTwo(s, x, x + 1);
  }

  /** The facts about the leading group the group tests rely on. */
  lemma LeadingGroup(s: seq<int>)
    requires |s| == 5 && NonIncreasing(s)
    ensures |Ordered(s)| > 0
    ensures Ordered(s)[0].rank in s && Ordered(s)[0].count == Count(s, Ordered(s)[0].rank)
    ensures Ordered(s)[0].count <= 5
    ensures forall x :: x in s ==> Count(s, x) <= Ordered(s)[0].count
  {
    OrderedHead(s);
    assert Ordered(s)[0] in Ordered(s);
    CountBound(s, Ordered(s)[0].rank);
  }

  /** The facts about the second group the group tests rely on. */
  lemma SecondGroup(s: seq<int>)
    requires |s| == 5 && NonIncreasing(s) && Ordered(s)[0].count < 5
    ensures |Ordered(s)| >= 2
    ensures Ordered(s)[1].rank in s && Ordered(s)[1].count == Count(s, Ordered(s)[1].rank)
    ensures Ordered(s)[1].rank != Ordered(s)[0].rank
    ensures Ordered(s)[1].count <= Ordered(s)[0].count
    ensures forall x :: x in s && x != Ordered(s)[0].rank ==> Count(s, x) <= Ordered(s)[1].count
  {
    LeadingGroup(s);
    OrderedSecond(s);
    assert Ordered(s)[1] in Ordered(s);
  }

  /** `ordered[0][1] == 4` holds exactly when some rank occurs four times. */
  lemma QuadsAgree(s: seq<int>)
    requires |s| == 5 && NonIncreasing(s)
    ensures Ordered(s)[0].count == 4 <==> HasCount(s, 4)
  {
    LeadingGroup(s);
    var top := Ordered(s)[0];
    if x :| x in s && Count(s, x) == 4 {
      if top.count == 5 {
        CountTwo(s, top.rank, x);
      }
    }
  }

  /** `ordered[0][1] == 3` holds exactly when some rank occurs three times. */
  lemma TripsAgree(s: seq<int>)
    requires |s| == 5 && NonIncreasing(s)
    ensures Ordered(s)[0].count == 3 <==> HasCount(s, 3)
  {
    LeadingGroup(s);
    var top := Ordered(s)[0];
    if x :| x in s && Count(s, x) == 3 {
      if top.count > 3 {
        CountTwo(s, top.rank, x);
      }
    }
  }

  /** Behind three of a kind, `ordered[1][1] == 2` holds exactly when some rank occurs twice. */
  lemma FullHouseAgree(s: seq<int>)
    requires |s| == 5 && NonIncreasing(s) && Ordered(s)[0].count == 3
    ensures |Ordered(s)| >= 2
    ensures Ordered(s)[1].count == 2 <==> HasCount(s, 2)
  {
    SecondGroup(s);
    var top, second := Ordered(s)[0], Ordered(s)[1];
    CountTwo(s, top.rank, second.rank);
    if x :| x in s && Count(s, x) == 2 {
      assert x != top.rank;
    }
  }

  /** Without a rank occurring three or four times, the leading group is a pair exactly when some rank occurs twice. */
  lemma PairAgree(s: seq<int>)
    requires |s| == 5 && NonIncreasing(s)
    requires !HasCount(s, 3) && !HasCount(s, 4)
    ensures Ordered(s)[0].count == 2 <==> HasCount(s, 2)
  {
    LeadingGroup(s);
    var top := Ordered(s)[0];
    assert top.count != 3 && top.count != 4;
    if x :| x in s && Count(s, x) == 2 {
      if top.count == 5 {
        CountTwo(s, top.rank, x);
      }
    }
  }

  /** Without a rank occurring three or four times, the first two groups are pairs exactly when there are two pairs. */
  lemma TwoPairAgree(s: seq<int>)
    requires |s| == 5 && NonIncreasing(s)
    requires !HasCount(s, 3) && !HasCount(s, 4)
    ensures (Ordered(s)[0].count == 2 && |Ordered(s)| >= 2 && Ordered(s)[1].count == 2)
            <==> HasTwoPairs(s)
  {
    LeadingGroup(s);
    var top := Ordered(s)[0];
    if top.count == 2 {
      SecondGroup(s);
      var second := Ordered(s)[1];
      if second.count == 2 {
        assert top.rank in s && second.rank in s;
      }
    }
    if x, y :| x in s && y in s && x != y && Count(s, x) == 2 && Count(s, y) == 2 {
      assert top.count != 3 && top.count != 4;
      if top.count == 5 {
        if top.rank != x { CountTwo(s, top.rank, x); } else { CountTwo(s, top.rank, y); }
      }
      SecondGroup(s);
      if top.rank != x {
        assert Count(s, x) <= Ordered(s)[1].count;
      } else {
        assert Count(s, y) <= Ordered(s)[1].count;
      }
    }
  }

  /** Ranks that all differ contain no repeated rank. */
  lemma DistinctCounts(s: seq<int>, x: int)
    requires Decreasing(s) && x in s
    ensures Count(s, x) == 1
  {
    var i :| 0 <= i < |s| && s[i] == x;
    assert s == s[..i] + [x] + s[i + 1..];
    assert x !in s[..i] && x !in s[i + 1..] by {
      forall j | 0 <= j < |s| && j != i ensures s[j] != x { }
    }
    assert multiset(s) == multiset(s[..i]) + multiset{x} + multiset(s[i + 1..]);
  }

  /** A straight has five different ranks, so no rank repeats. */
  lemma StraightNoRepeats(s: seq<int>, deuce: int)
    requires |s| == 5
    ensures RunHigh(s, deuce).Some? ==>
              Decreasing(s) && (forall x :: x in s ==> Count(s, x) == 1)
              && !HasCount(s, 4) && !HasCount(s, 3) && !HasCount(s, 2)
  {
    if RunHigh(s, deuce).Some? {
      assert Decreasing(Wheel(deuce));
      forall x | x in s ensures Count(s, x) == 1 {
        DistinctCounts(s, x);
      }
    }
  }

  /** Filtering out one rank keeps the count of every other rank. */
  lemma CountWithout(s: seq<int>, x: int, y: int)
    requires y != x
    ensures Count(Without(s, x), y) == Count(s, y)
  {
    WithoutCounts(s, x);
  }

  /** Two positions holding the same rank make that rank occur at least twice. */
  lemma Repeated(r: seq<int>, i: int, j: int)
    requires 0 <= i < j < |r|
    ensures r[i] == r[j] ==> Count(r, r[i]) >= 2
  {
    if r[i] == r[j] {
      var x := r[i];
      assert r == r[..i] + [x] + r[i + 1..j] + [x] + r[j + 1..];
      assert multiset(r) == multiset(r[..i]) + multiset{x} + multiset(r[i + 1..j])
                            + multiset{x} + multiset(r[j + 1..]);
    }
  }

  /** A descending sequence in which every rank occurs once is strictly descending. */
  lemma SinglesDecreasing(r: seq<int>)
    requires NonIncreasing(r)
    requires forall x :: x in r ==> Count(r, x) == 1
    ensures Decreasing(r)
  {
    forall i, j | 0 <= i < j < |r| ensures r[i] > r[j] {
      Repeated(r, i, j);
    }
  }

  /**
   * When every rank other than `x` occurs once, the ranks left after
   * filtering out `x` are the other cards, all different, in descending order.
   */
  lemma SinglesWithout(s: seq<int>, x: int)
    requires NonIncreasing(s)
    requires forall y :: y in s && y != x ==> Count(s, y) == 1
    ensures |Without(s, x)| == |s| - Count(s, x)
    ensures Decreasing(Without(s, x))
    ensures forall y :: y in Without(s, x) ==> y in s && y != x && Count(s, y) == 1
  {
    var w := Without(s, x);
    WithoutCounts(s, x);
    forall y | y in w ensures Count(w, y) == 1 {
      CountWithout(s, x, y);
    }
    SinglesDecreasing(w);
  }
}
