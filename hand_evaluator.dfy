/**
 * The current hand evaluator. A five-card hand is scored by a tuple whose
 * first component is the category (8 straight flush, 7 four of a kind,
 * 6 full house, 5 flush, 4 straight, 3 three of a kind, 2 two pair,
 * 1 one pair, 0 high card) and whose remaining components break ties; a
 * greater tuple is a better hand. Rank values run from 2 to 14 (ace).
 * A seven-card hand is scored by its best five-card selection.
 */
module HandEvaluator {
  import opened Wrappers
  import opened Cards
  import opened RankAnalysis
  import opened Combinatorics
  import opened Categories
  import TupleOrder

  datatype Evaluation = Evaluation(score: seq<int>, name: string)

  /** `[c[0] + 2 for c in cards]`: rank indices shifted to values 2..14. */
  function ShiftedRanks(cards: seq<Card>): (r: seq<int>)
    ensures |r| == |cards|
    ensures forall i :: 0 <= i < |cards| ==> r[i] == cards[i].rank + 2
  {
    seq(|cards|, i requires 0 <= i < |cards| => cards[i].rank + 2)
  }

  /** `ranks`: the shifted rank values in descending order. */
  function SortedRanks(cards: seq<Card>): (s: seq<int>)
    ensures |s| == |cards| && NonIncreasing(s)
    ensures multiset(s) == multiset(ShiftedRanks(cards))
    ensures (forall c :: c in cards ==> ValidCard(c)) ==> forall v :: v in s ==> 2 <= v <= 14
  {
    SortedMembers(ShiftedRanks(cards));
    ShiftedInRange(cards);
    SortDesc(ShiftedRanks(cards))
  }

  /** The values of valid cards run from 2 to 14. */
  lemma ShiftedInRange(cards: seq<Card>)
    ensures (forall c :: c in cards ==> ValidCard(c)) ==> forall v :: v in ShiftedRanks(cards) ==> 2 <= v <= 14
  {
    if forall c :: c in cards ==> ValidCard(c) {
      forall v | v in ShiftedRanks(cards)
        ensures 2 <= v <= 14
      {
        var i :| 0 <= i < |cards| && ShiftedRanks(cards)[i] == v;
        assert cards[i] in cards;
      }
    }
  }

  /** `evaluate_5`: the score tuple and category name of exactly five cards. */
  function Evaluate5(cards: seq<Card>): (e: Evaluation)
    requires |cards| == 5
    ensures |e.score| > 0 && 0 <= e.score[0] <= 8
    ensures e.name == CategoryName(e.score[0])
  {
    Classify(SortedRanks(cards), IsFlush(cards))
  }

  /** The body of `evaluate_5` once the descending ranks and the flush test are known. */
  function Classify(ranks: seq<int>, flush: bool): (e: Evaluation)
    requires |ranks| == 5 && NonIncreasing(ranks)
    ensures |e.score| > 0 && 0 <= e.score[0] <= 8
    ensures e.name == CategoryName(e.score[0])
  {
    var ordered := Ordered(ranks);
    OrderedHead(ranks);
    assert ordered[0] in ordered;
    var straight := StraightHigh(ranks, 2);
    if straight.Some? && flush then
      Evaluation([8, straight.value], "Straight Flush")
    else if ordered[0].count == 4 then
      Evaluation(QuadsScore(ranks, ordered[0].rank), "Four of a Kind")
    else if ordered[0].count == 3 && (OrderedSecond(ranks); ordered[1].count == 2) then
      Evaluation([6, ordered[0].rank, ordered[1].rank], "Full House")
    else if flush then
      Evaluation([5] + ranks, "Flush")
    else if straight.Some? then
      Evaluation([4, straight.value], "Straight")
    else if ordered[0].count == 3 then
      Evaluation(KickersScore(3, ranks, ordered[0].rank, 2), "Three of a Kind")
    else if ordered[0].count == 2 && (OrderedSecond(ranks); ordered[1].count == 2) then
      assert ordered[1] in ordered;
      Evaluation(TwoPairScore(ranks, ordered[0].rank, ordered[1].rank), "Two Pair")
    else if ordered[0].count == 2 then
      Evaluation(KickersScore(1, ranks, ordered[0].rank, 3), "One Pair")
    else
      Evaluation([0] + ranks, "High Card")
  }

  /** The four-of-a-kind score: category 7, the quad rank, then the highest other rank as kicker. */
  function QuadsScore(ranks: seq<int>, quad: int): (r: seq<int>)
    requires Count(ranks, quad) < |ranks|
    ensures |r| == 3 && r[0] == 7 && r[1] == quad
  {
    WithoutCounts(ranks, quad);
    [7, quad, Max(Without(ranks, quad))]
  }

  /** A score of the category, the grouped rank, then up to `n` of the remaining ranks, highest first. */
  function KickersScore(category: int, ranks: seq<int>, rank: int, n: nat): (r: seq<int>)
    ensures |r| >= 2 && r[0] == category && r[1] == rank
  {
    [category, rank] + Take(SortDesc(Without(ranks, rank)), n)
  }

  /** `(2, high_pair, low_pair, kicker)` with the kicker the best rank outside both pairs. */
  function TwoPairScore(ranks: seq<int>, a: int, b: int): (r: seq<int>)
    requires a != b && Count(ranks, a) + Count(ranks, b) < |ranks|
    ensures |r| == 4 && r[0] == 2
  {
    var highPair, lowPair := Larger(a, b), Min(a, b);
    WithoutCounts(ranks, highPair);
    WithoutCounts(Without(ranks, highPair), lowPair);
    [2, highPair, lowPair, Max(Without(Without(ranks, highPair), lowPair))]
  }

  // ---------------------------------------------------------------------
  // What the score means

  /** The first score component is the category of the hand. */
  lemma ClassifyCategory(ranks: seq<int>, flush: bool)
    requires |ranks| == 5 && NonIncreasing(ranks)
    ensures Classify(ranks, flush).score[0] == Category(ranks, flush, 2)
  {
    StraightAgrees(ranks, 2);
    QuadsAgree(ranks);
    TripsAgree(ranks);
    LeadingGroup(ranks);
    if Ordered(ranks)[0].count == 3 {
      FullHouseAgree(ranks);
    }
    if !HasCount(ranks, 3) && !HasCount(ranks, 4) {
      PairAgree(ranks);
      TwoPairAgree(ranks);
    }
  }

  /** A straight scores (4, high card), or (8, high card) when it is also a flush. */
  lemma StraightMeaning(ranks: seq<int>, flush: bool, high: int)
    requires |ranks| == 5 && NonIncreasing(ranks)
    requires RunHigh(ranks, 2) == Some(high)
    ensures Classify(ranks, flush).score == [if flush then 8 else 4, high]
  {
    StraightAgrees(ranks, 2);
    StraightNoRepeats(ranks, 2);
    LeadingGroup(ranks);
    assert Ordered(ranks)[0].count == 1;
  }

  /** The branch of `evaluate_5` that produces a four of a kind score. */
  lemma QuadsBranch(ranks: seq<int>, flush: bool)
    requires |ranks| == 5 && NonIncreasing(ranks)
    requires Classify(ranks, flush).score[0] == 7
    ensures Count(ranks, Ordered(ranks)[0].rank) == 4
    ensures Classify(ranks, flush).score == QuadsScore(ranks, Ordered(ranks)[0].rank)
  {
    LeadingGroup(ranks);
  }

  /** Four of a kind scores (7, the rank held four times, the rank of the fifth card). */
  lemma QuadsMeaning(ranks: seq<int>, flush: bool)
    requires |ranks| == 5 && NonIncreasing(ranks)
    requires Classify(ranks, flush).score[0] == 7
    ensures var sc := Classify(ranks, flush).score;
            |sc| == 3 && Count(ranks, sc[1]) == 4 && sc[2] in ranks && Count(ranks, sc[2]) == 1
  {
    QuadsBranch(ranks, flush);
    var quad := Ordered(ranks)[0].rank;
    WithoutCounts(ranks, quad);
    var kicker := Max(Without(ranks, quad));
    CountTwo(ranks, quad, kicker);
  }

  /** A full house scores (6, the rank held three times, the rank held twice). */
  lemma FullHouseMeaning(ranks: seq<int>, flush: bool)
    requires |ranks| == 5 && NonIncreasing(ranks)
    requires Classify(ranks, flush).score[0] == 6
    ensures var sc := Classify(ranks, flush).score;
            |sc| == 3 && Count(ranks, sc[1]) == 3 && Count(ranks, sc[2]) == 2
  {
    LeadingGroup(ranks);
    SecondGroup(ranks);
  }

  /** The branch of `evaluate_5` that produces a three of a kind score. */
  lemma TripsBranch(ranks: seq<int>, flush: bool)
    requires |ranks| == 5 && NonIncreasing(ranks)
    requires Classify(ranks, flush).score[0] == 3
    ensures Count(ranks, Ordered(ranks)[0].rank) == 3
    ensures forall y :: y in ranks && y != Ordered(ranks)[0].rank ==> Count(ranks, y) == 1
    ensures Classify(ranks, flush).score == KickersScore(3, ranks, Ordered(ranks)[0].rank, 2)
  {
    LeadingGroup(ranks);
    SecondGroup(ranks);
    CountTwo(ranks, Ordered(ranks)[0].rank, Ordered(ranks)[1].rank);
  }

  /**
   * Three of a kind scores (3, the rank held three times, k1, k2) where k1 > k2
   * are the two other cards.
   */
  lemma TripsMeaning(ranks: seq<int>, flush: bool)
    requires |ranks| == 5 && NonIncreasing(ranks)
    requires Classify(ranks, flush).score[0] == 3
    ensures var sc := Classify(ranks, flush).score;
            |sc| == 4 && Count(ranks, sc[1]) == 3 && sc[2] > sc[3]
            && sc[2] in ranks && Count(ranks, sc[2]) == 1
            && sc[3] in ranks && Count(ranks, sc[3]) == 1
  {
    TripsBranch(ranks, flush);
    var trip := Ordered(ranks)[0].rank;
    SinglesWithout(ranks, trip);
    SortDescOfSorted(Without(ranks, trip));
  }

  /** The branch of `evaluate_5` that produces a two pair score. */
  lemma TwoPairBranch(ranks: seq<int>, flush: bool)
    requires |ranks| == 5 && NonIncreasing(ranks)
    requires Classify(ranks, flush).score[0] == 2
    ensures Ordered(ranks)[0].count == 2 && |Ordered(ranks)| >= 2 && Ordered(ranks)[1].count == 2
    ensures Ordered(ranks)[0].rank != Ordered(ranks)[1].rank
    ensures Count(ranks, Ordered(ranks)[0].rank) == 2 && Count(ranks, Ordered(ranks)[1].rank) == 2
    ensures Classify(ranks, flush).score
            == TwoPairScore(ranks, Ordered(ranks)[0].rank, Ordered(ranks)[1].rank)
  {
    LeadingGroup(ranks);
    SecondGroup(ranks);
  }

  /**
   * Two pair scores (2, high pair, low pair, kicker): two ranks held twice,
   * the higher first, then the rank of the unpaired card.
   */
  lemma TwoPairMeaning(ranks: seq<int>, flush: bool)
    requires |ranks| == 5 && NonIncreasing(ranks)
    requires Classify(ranks, flush).score[0] == 2
    ensures var sc := Classify(ranks, flush).score;
            |sc| == 4 && sc[1] > sc[2] && Count(ranks, sc[1]) == 2 && Count(ranks, sc[2]) == 2
            && sc[3] in ranks && Count(ranks, sc[3]) == 1
  {
    TwoPairBranch(ranks, flush);
    var a, b := Ordered(ranks)[0].rank, Ordered(ranks)[1].rank;
    var hi, lo := Larger(a, b), Min(a, b);
    WithoutCounts(ranks, hi);
    WithoutCounts(Without(ranks, hi), lo);
    var kicker := Max(Without(Without(ranks, hi), lo));
    CountThree(ranks, hi, lo, kicker);
  }

  /** The branch of `evaluate_5` that produces a one pair score. */
  lemma PairBranch(ranks: seq<int>, flush: bool)
    requires |ranks| == 5 && NonIncreasing(ranks)
    requires Classify(ranks, flush).score[0] == 1
    ensures Count(ranks, Ordered(ranks)[0].rank) == 2
    ensures forall y :: y in ranks && y != Ordered(ranks)[0].rank ==> Count(ranks, y) == 1
    ensures Classify(ranks, flush).score == KickersScore(1, ranks, Ordered(ranks)[0].rank, 3)
  {
    LeadingGroup(ranks);
    SecondGroup(ranks);
  }

  /**
   * One pair scores (1, pair rank, k1, k2, k3) where k1 > k2 > k3 are the
   * three other cards.
   */
  lemma PairMeaning(ranks: seq<int>, flush: bool)
    requires |ranks| == 5 && NonIncreasing(ranks)
    requires Classify(ranks, flush).score[0] == 1
    ensures var sc := Classify(ranks, flush).score;
            |sc| == 5 && Count(ranks, sc[1]) == 2 && sc[2] > sc[3] > sc[4]
            && (forall i :: 2 <= i < 5 ==> sc[i] in ranks && Count(ranks, sc[i]) == 1)
            && forall y :: y in ranks && y != sc[1] ==> Count(ranks, y) == 1
  {
    PairBranch(ranks, flush);
    PairScore(ranks, Ordered(ranks)[0].rank);
  }

  /** The one pair score of five descending ranks holding one pair and three singles. */
  lemma PairScore(ranks: seq<int>, pair: int)
    requires |ranks| == 5 && NonIncreasing(ranks) && Count(ranks, pair) == 2
    requires forall y :: y in ranks && y != pair ==> Count(ranks, y) == 1
    ensures var sc := KickersScore(1, ranks, pair, 3);
            |sc| == 5 && sc[1] == pair && sc[2] > sc[3] > sc[4]
            && forall i :: 2 <= i < 5 ==> sc[i] in ranks && Count(ranks, sc[i]) == 1
  {
    var w := Without(ranks, pair);
    SinglesWithout(ranks, pair);
    SortDescOfSorted(w);
    var sc := KickersScore(1, ranks, pair, 3);
    assert sc == [1, pair] + w;
    forall i | 2 <= i < 5
      ensures sc[i] in ranks && Count(ranks, sc[i]) == 1
    {
      assert sc[i] == w[i - 2] && w[i - 2] in w;
    }
  }

  // ---------------------------------------------------------------------
  // Comparing hands

  /** Scores compare by category first: a better category always wins. */
  lemma CategoryDecides(r1: seq<int>, f1: bool, r2: seq<int>, f2: bool)
    requires |r1| == 5 && NonIncreasing(r1) && |r2| == 5 && NonIncreasing(r2)
    requires Category(r1, f1, 2) < Category(r2, f2, 2)
    ensures TupleOrder.Less(Classify(r1, f1).score, Classify(r2, f2).score)
  {
    ClassifyCategory(r1, f1);
    ClassifyCategory(r2, f2);
    TupleOrder.HeadDecides(Classify(r1, f1).score, Classify(r2, f2).score);
  }

  /** A straight flush beats every hand holding four of a kind. */
  lemma StraightFlushBeatsQuads(r1: seq<int>, r2: seq<int>, f2: bool)
    requires |r1| == 5 && NonIncreasing(r1) && |r2| == 5 && NonIncreasing(r2)
    requires RunHigh(r1, 2).Some? && HasCount(r2, 4)
    ensures Classify(r1, true).score[0] == 8 && Classify(r2, f2).score[0] == 7
    ensures TupleOrder.Less(Classify(r2, f2).score, Classify(r1, true).score)
  {
    StraightNoRepeats(r2, 2);
    ClassifyCategory(r1, true);
    ClassifyCategory(r2, f2);
    CategoryDecides(r2, f2, r1, true);
  }

  /**
   * The wheel is a straight with high card 5 and loses to every other
   * straight of real cards (ranks 2 and up), flush or not alike.
   */
  lemma WheelLowestStraight(r: seq<int>, flush: bool)
    requires |r| == 5 && NonIncreasing(r)
    requires RunHigh(r, 2).Some? && r != Wheel(2)
    requires forall x :: x in r ==> 2 <= x
    ensures Classify(Wheel(2), flush).score == [if flush then 8 else 4, 5]
    ensures TupleOrder.Less(Classify(Wheel(2), flush).score, Classify(r, flush).score)
  {
    StraightMeaning(Wheel(2), flush, 5);
    assert r[4] in r;
    StraightMeaning(r, flush, r[0]);
  }

  /**
   * Full houses compare by the rank held three times first, whatever the
   * pairs: aces full of sevens beats sevens full of aces.
   */
  lemma FullHouseByTrips(r1: seq<int>, f1: bool, t1: int, r2: seq<int>, f2: bool, t2: int)
    requires |r1| == 5 && NonIncreasing(r1) && |r2| == 5 && NonIncreasing(r2)
    requires Classify(r1, f1).score[0] == 6 && Classify(r2, f2).score[0] == 6
    requires Count(r1, t1) == 3 && Count(r2, t2) == 3 && t1 < t2
    ensures TupleOrder.Less(Classify(r1, f1).score, Classify(r2, f2).score)
  {
    FullHouseMeaning(r1, f1);
    FullHouseMeaning(r2, f2);
    var s1, s2 := Classify(r1, f1).score, Classify(r2, f2).score;
    if s1[1] != t1 { CountTwo(r1, s1[1], t1); }
    if s2[1] != t2 { CountTwo(r2, s2[1], t2); }
    assert s1[1..][1..] == [s1[2]] && s2[1..][1..] == [s2[2]];
  }

  /** The pair rank of a one pair score is the rank held twice. */
  lemma PairRank(ranks: seq<int>, flush: bool, pair: int)
    requires |ranks| == 5 && NonIncreasing(ranks)
    requires Classify(ranks, flush).score[0] == 1 && Count(ranks, pair) == 2
    ensures |Classify(ranks, flush).score| == 5 && Classify(ranks, flush).score[1] == pair
  {
    PairMeaning(ranks, flush);
    assert pair in multiset(ranks);
  }

  /**
   * Between two hands holding the same pair, the kickers decide: highest
   * kicker first, then the next, then the last.
   */
  lemma PairKickersDecide(r1: seq<int>, f1: bool, r2: seq<int>, f2: bool, pair: int)
    requires |r1| == 5 && NonIncreasing(r1) && |r2| == 5 && NonIncreasing(r2)
    requires Classify(r1, f1).score[0] == 1 && Classify(r2, f2).score[0] == 1
    requires Count(r1, pair) == 2 && Count(r2, pair) == 2
    ensures var s1, s2 := Classify(r1, f1).score, Classify(r2, f2).score;
            |s1| == 5 && |s2| == 5 && s1[1] == pair && s2[1] == pair
            && (TupleOrder.Less(s1, s2) <==> TupleOrder.Less(s1[2..], s2[2..]))
  {
    PairRank(r1, f1, pair);
    PairRank(r2, f2, pair);
    TupleOrder.SameTwoHeads(Classify(r1, f1).score, Classify(r2, f2).score);
  }

  // ---------------------------------------------------------------------
  // best_hand: the running best over the 21 five-card selections

  /** The best selection of a hand: its score, its five cards and its category name. */
  datatype Best = Best(score: seq<int>, hand: seq<Card>, name: string)

  /** The entry the loop records for a selection. */
  function Entry(combo: seq<Card>): (b: Best)
    requires |combo| == 5
    ensures b.hand == combo && b.score == Evaluate5(combo).score
  {
    var e := Evaluate5(combo);
    Best(e.score, combo, e.name)
  }

  /** The entries of all the selections, in the order `combinations` lists them. */
  function Entries(combos: seq<seq<Card>>): (es: seq<Best>)
    requires forall i :: 0 <= i < |combos| ==> |combos[i]| == 5
    ensures |es| == |combos|
    ensures forall i :: 0 <= i < |combos| ==> es[i] == Entry(combos[i])
  {
    seq(|combos|, i requires 0 <= i < |combos| => Entry(combos[i]))
  }

  /**
   * The loop of `best_hand` over the entries: the first one is recorded,
   * and a later one replaces the record only when its score is strictly
   * greater.
   */
  function BestOf(entries: seq<Best>): (b: Option<Best>)
    ensures b.None? <==> |entries| == 0
    decreases |entries|
  {
    if |entries| == 0 then None
    else
      var prev := BestOf(entries[..|entries| - 1]);
      var e := entries[|entries| - 1];
      if prev.None? || TupleOrder.Less(prev.value.score, e.score) then Some(e) else prev
  }

  /** Entry i has a greatest score, and every earlier entry scores strictly less. */
  predicate FirstMaximumAt(entries: seq<Best>, i: int) {
    0 <= i < |entries|
    && (forall j :: 0 <= j < |entries| ==> TupleOrder.LessEq(entries[j].score, entries[i].score))
    && forall j :: 0 <= j < i ==> TupleOrder.Less(entries[j].score, entries[i].score)
  }

  /** A strictly better last entry becomes the first maximum. */
  lemma ReplacesBest(entries: seq<Best>, i: int)
    requires |entries| >= 2 && FirstMaximumAt(entries[..|entries| - 1], i)
    requires TupleOrder.Less(entries[i].score, entries[|entries| - 1].score)
    ensures FirstMaximumAt(entries, |entries| - 1)
  {
    var n := |entries|;
    var e := entries[n - 1];
    var init := entries[..n - 1];
    forall j | 0 <= j < n - 1 ensures TupleOrder.Less(entries[j].score, e.score) {
      assert entries[j] == init[j];
      if entries[j].score != entries[i].score {
        TupleOrder.LessTransitive(entries[j].score, entries[i].score, e.score);
      }
    }
  }

  /** A last entry that is not strictly better leaves the first maximum in place. */
  lemma KeepsBest(entries: seq<Best>, i: int)
    requires |entries| >= 2 && FirstMaximumAt(entries[..|entries| - 1], i)
    requires !TupleOrder.Less(entries[i].score, entries[|entries| - 1].score)
    ensures FirstMaximumAt(entries, i)
  {
    var n := |entries|;
    TupleOrder.LessTrichotomy(entries[i].score, entries[n - 1].score);
    assert forall j :: 0 <= j < n - 1 ==> entries[j] == entries[..n - 1][j];
  }

  /** The recorded entry is the first entry with a greatest score. */
  lemma {:induction false} BestOfIsFirstMaximum(entries: seq<Best>)
    requires |entries| > 0
    ensures exists i :: FirstMaximumAt(entries, i) && BestOf(entries) == Some(entries[i])
    decreases |entries|
  {
    var n := |entries|;
    if n == 1 {
      TupleOrder.LessIrreflexive(entries[0].score);
      assert FirstMaximumAt(entries, 0);
    } else {
      var init := entries[..n - 1];
      BestOfIsFirstMaximum(init);
      var i :| FirstMaximumAt(init, i) && BestOf(init) == Some(init[i]);
      assert init[i] == entries[i];
      if TupleOrder.Less(entries[i].score, entries[n - 1].score) {
        ReplacesBest(entries, i);
      } else {
        KeepsBest(entries, i);
      }
    }
  }

  /**
   * `best_hand`: the best five-card selection of the cards (seven at a
   * showdown: two hole cards and the board).
   */
  function BestHand(cards: seq<Card>): (b: Best)
    requires |cards| >= 5
  {
    CombinationsLengths(cards, 5);
    CombinationsNonEmpty(cards, 5);
    BestOf(Entries(Combinations(cards, 5))).value
  }

  /**
   * The best hand is a selection of the cards with its own score,
   * no selection scores more, and every selection listed before it scores
   * strictly less.
   */
  lemma BestHandIsFirstMaximum(cards: seq<Card>)
    requires |cards| >= 5
    ensures BestHand(cards).hand in Combinations(cards, 5)
    ensures |BestHand(cards).hand| == 5
    ensures BestHand(cards) == Entry(BestHand(cards).hand)
    ensures forall j :: 0 <= j < |Combinations(cards, 5)| ==>
              |Combinations(cards, 5)[j]| == 5
              && TupleOrder.LessEq(Evaluate5(Combinations(cards, 5)[j]).score, BestHand(cards).score)
    ensures exists i :: 0 <= i < |Combinations(cards, 5)|
              && BestHand(cards).hand == Combinations(cards, 5)[i]
              && forall j :: 0 <= j < i ==>
                   TupleOrder.Less(Evaluate5(Combinations(cards, 5)[j]).score, BestHand(cards).score)
  {
    var combos := Combinations(cards, 5);
    CombinationsLengths(cards, 5);
    CombinationsNonEmpty(cards, 5);
    var es := Entries(combos);
    BestOfIsFirstMaximum(es);
    var i :| FirstMaximumAt(es, i) && BestOf(es) == Some(es[i]);
    var best := BestHand(cards);
    assert best == es[i];
    forall j | 0 <= j < |combos| ensures |combos[j]| == 5 && TupleOrder.LessEq(Evaluate5(combos[j]).score, best.score) {
      assert es[j] == Entry(combos[j]);
    }
    forall j | 0 <= j < i ensures TupleOrder.Less(Evaluate5(combos[j]).score, best.score) {
      assert es[j] == Entry(combos[j]);
    }
  }

  // ---------------------------------------------------------------------
  // Suits matter only through flushes

  /** Five cards with the same ranks and the same flush status score alike. */
  lemma SameRanksSameScore(c1: seq<Card>, c2: seq<Card>)
    requires |c1| == 5 && SameRanks(c1, c2) && IsFlush(c1) == IsFlush(c2)
    ensures Evaluate5(c1) == Evaluate5(c2)
  {
    assert ShiftedRanks(c1) == ShiftedRanks(c2);
    assert SortedRanks(c1) == SortedRanks(c2);
  }

  /** Fewer than five cards of every suit leave no flush among the selections. */
  lemma NoFlushSelection(cards: seq<Card>, combo: seq<Card>)
    requires combo in Combinations(cards, 5)
    requires forall u :: SuitCount(cards, u) < 5
    ensures !IsFlush(combo)
  {
    CombinationsLength(cards, 5, combo);
    FlushSuitCount(combo);
    if |combo| > 0 {
      CombinationSuitCount(cards, 5, combo, combo[0].suit);
    }
  }

  /** The running best depends on the entries only through their scores. */
  lemma {:induction false} BestOfSameScores(ea: seq<Best>, eb: seq<Best>)
    requires |ea| == |eb|
    requires forall i :: 0 <= i < |ea| ==> ea[i].score == eb[i].score
    ensures BestOf(ea).Some? ==> BestOf(ea).value.score == BestOf(eb).value.score
    decreases |ea|
  {
    if |ea| > 0 {
      var n := |ea|;
      BestOfSameScores(ea[..n - 1], eb[..n - 1]);
    }
  }

  /**
   * Two seven-card hands that agree on every rank, neither holding five
   * cards of one suit, get the same best score.
   */
  lemma BestHandIgnoresSuits(a: seq<Card>, b: seq<Card>)
    requires |a| == 7 && SameRanks(a, b)
    requires forall u :: SuitCount(a, u) < 5 && SuitCount(b, u) < 5
    ensures BestHand(a).score == BestHand(b).score
  {
    var ca, cb := Combinations(a, 5), Combinations(b, 5);
    SelectionsScoreAlike(a, b);
    SevenChooseFive(a);
    BestOfSameScores(Entries(ca), Entries(cb));
  }

  /** Without a possible flush, selections at the same position score alike. */
  lemma SelectionsScoreAlike(a: seq<Card>, b: seq<Card>)
    requires SameRanks(a, b)
    requires forall u :: SuitCount(a, u) < 5 && SuitCount(b, u) < 5
    ensures |Combinations(a, 5)| == |Combinations(b, 5)|
    ensures forall i :: 0 <= i < |Combinations(a, 5)| ==>
              |Combinations(a, 5)[i]| == 5 && |Combinations(b, 5)[i]| == 5
              && Evaluate5(Combinations(a, 5)[i]).score == Evaluate5(Combinations(b, 5)[i]).score
  {
    var ca, cb := Combinations(a, 5), Combinations(b, 5);
    CombinationsSameRanks(a, b, 5);
    CombinationsLengths(a, 5);
    CombinationsLengths(b, 5);
    forall i | 0 <= i < |ca|
      ensures Evaluate5(ca[i]).score == Evaluate5(cb[i]).score
    {
      NoFlushSelection(a, ca[i]);
      NoFlushSelection(b, cb[i]);
      SameRanksSameScore(ca[i], cb[i]);
    }
  }

  // ---------------------------------------------------------------------
  // The order of the cards does not matter

  /** Removing position `j` takes away one copy of `s[j]`. */
  lemma RemoveAt<T>(s: seq<T>, j: int)
    requires 0 <= j < |s|
    ensures multiset(s) == multiset(s[..j] + s[j + 1..]) + multiset{s[j]}
  {
    assert s == s[..j] + [s[j]] + s[j + 1..];
  }

  /** The shifted values of a hand with one card removed. */
  lemma ShiftedRemoveAt(cards: seq<Card>, j: int)
    requires 0 <= j < |cards|
    ensures ShiftedRanks(cards[..j] + cards[j + 1..])
            == ShiftedRanks(cards)[..j] + ShiftedRanks(cards)[j + 1..]
  {
  }

  /** Hands holding the same cards hold the same multiset of values. */
  lemma {:induction false} ShiftedMultiset(a: seq<Card>, b: seq<Card>)
    requires multiset(a) == multiset(b)
    ensures multiset(ShiftedRanks(a)) == multiset(ShiftedRanks(b))
    decreases |a|
  {
    assert |a| == |multiset(a)| == |multiset(b)| == |b|;
    if a != [] {
      assert a[0] in multiset(b);
      var j :| 0 <= j < |b| && b[j] == a[0];
      var rest := b[..j] + b[j + 1..];
      DropMatching(a, b, j);
      ShiftedMultiset(a[1..], rest);
      ShiftedStep(a, b, j);
    }
  }

  /** Taking the first card from one hand and a copy of it from the other leaves the same cards. */
  lemma DropMatching(a: seq<Card>, b: seq<Card>, j: int)
    requires a != [] && multiset(a) == multiset(b) && 0 <= j < |b| && b[j] == a[0]
    ensures multiset(a[1..]) == multiset(b[..j] + b[j + 1..])
  {
    RemoveAt(b, j);
    assert a == [a[0]] + a[1..];
    assert multiset(a[1..]) == multiset(a) - multiset{a[0]};
    assert multiset(b[..j] + b[j + 1..]) == multiset(b) - multiset{b[j]};
  }

  /** Equal values after the matching card is taken from both hands means equal values before. */
  lemma ShiftedStep(a: seq<Card>, b: seq<Card>, j: int)
    requires a != [] && 0 <= j < |b| && b[j] == a[0]
    requires multiset(ShiftedRanks(a[1..])) == multiset(ShiftedRanks(b[..j] + b[j + 1..]))
    ensures multiset(ShiftedRanks(a)) == multiset(ShiftedRanks(b))
  {
    ShiftedRemoveAt(b, j);
    RemoveAt(ShiftedRanks(b), j);
    assert ShiftedRanks(a) == [a[0].rank + 2] + ShiftedRanks(a[1..]);
  }

  /** Every card of one hand is a card of the other, so one is a flush only if the other is. */
  lemma FlushMultiset(a: seq<Card>, b: seq<Card>)
    requires multiset(a) == multiset(b)
    ensures IsFlush(a) ==> IsFlush(b)
  {
    if IsFlush(a) {
      assert |a| == |multiset(a)| == |multiset(b)| == |b|;
      forall i | 0 <= i < |b|
        ensures b[i].suit == a[0].suit
      {
        assert b[i] in multiset(a);
        var k :| 0 <= k < |a| && a[k] == b[i];
      }
    }
  }

  /** `evaluate_5` sees five cards as a set: any order gives the same evaluation. */
  lemma Evaluate5Multiset(a: seq<Card>, b: seq<Card>)
    requires |a| == 5 && multiset(a) == multiset(b)
    ensures |b| == 5 && Evaluate5(a) == Evaluate5(b)
  {
    assert |a| == |multiset(a)| == |multiset(b)| == |b|;
    ShiftedMultiset(a, b);
    SortedUnique(SortedRanks(a), SortedRanks(b));
    FlushMultiset(a, b);
    FlushMultiset(b, a);
  }

  /** Whatever the best selection of one hand scores, some selection of a reordering scores too. */
  lemma BestScoreCovered(a: seq<Card>, b: seq<Card>)
    requires |a| >= 5 && multiset(a) == multiset(b)
    ensures |b| == |a|
    ensures TupleOrder.LessEq(BestHand(a).score, BestHand(b).score)
  {
    assert |a| == |multiset(a)| == |multiset(b)| == |b|;
    BestHandIsFirstMaximum(a);
    BestHandIsFirstMaximum(b);
    var h := BestHand(a).hand;
    SelectionWithin(a, 5, h);
    assert |multiset(h)| == 5;
    var c := SelectionOf(b, 5, multiset(h));
    var j :| 0 <= j < |Combinations(b, 5)| && Combinations(b, 5)[j] == c;
    Evaluate5Multiset(h, c);
  }

  /** `best_hand` does not depend on the order in which the cards are given. */
  lemma BestHandOrderFree(a: seq<Card>, b: seq<Card>)
    requires |a| >= 5 && multiset(a) == multiset(b)
    ensures |b| == |a| && BestHand(a).score == BestHand(b).score
  {
    BestScoreCovered(a, b);
    BestScoreCovered(b, a);
    TupleOrder.LessTrichotomy(BestHand(a).score, BestHand(b).score);
  }
}
