/**
 * The older hand evaluator. It keeps the rank indices 0..12 (0 for a 2,
 * 12 for an ace) and scores a hand by a single integer: one million times
 * the category plus a tie-breaker. Straights and single-rank categories add
 * one rank index; flushes and high cards add the weighted sum
 * ranks[0] + 100 * ranks[1] + ... + 100^4 * ranks[4] over the descending
 * ranks, which weighs the lowest card most and can exceed a million, so the
 * category bands overlap.
 */
module LegacyHandEvaluator {
  import opened Wrappers
  import opened Cards
  import opened RankAnalysis
  import opened Combinatorics
  import opened Categories

  datatype Evaluation = Evaluation(score: int, name: string)

  /** `ranks`: the rank indices in descending order. */
  function SortedRanks(cards: seq<Card>): (s: seq<int>)
    ensures |s| == |cards| && NonIncreasing(s)
    ensures multiset(s) == multiset(seq(|cards|, i requires 0 <= i < |cards| => cards[i].rank))
  {
    SortDesc(seq(|cards|, i requires 0 <= i < |cards| => cards[i].rank))
  }

  function Pow100(i: nat): nat {
    if i == 0 then 1 else 100 * Pow100(i - 1)
  }

  /** The sum of `ranks[i] * 100^i` for `i` from `from` to the end. */
  function WeightedSumFrom(ranks: seq<int>, from: nat): int
    requires from <= |ranks|
    decreases |ranks| - from
  {
    if from == |ranks| then 0
    else ranks[from] * Pow100(from) + WeightedSumFrom(ranks, from + 1)
  }

  /** The sum of `ranks[i] * 100^i` over every position `i`: each rank weighted by its place. */
  function WeightedSum(ranks: seq<int>): int {
    WeightedSumFrom(ranks, 0)
  }

  /** `evaluate_5`: the integer score and category name of exactly five cards. */
  function Evaluate5(cards: seq<Card>): Evaluation
    requires |cards| == 5
  {
    Classify(SortedRanks(cards), IsFlush(cards))
  }

  /** The body of `evaluate_5` once the descending ranks and the flush test are known. */
  function Classify(ranks: seq<int>, flush: bool): Evaluation
    requires |ranks| == 5 && NonIncreasing(ranks)
  {
    var ordered := Ordered(ranks);
    OrderedHead(ranks);
    var straight := StraightHigh(ranks, 0);
    if straight.Some? && flush then
      Evaluation(8_000_000 + straight.value, "Straight Flush")
    else if ordered[0].count == 4 then
      Evaluation(7_000_000 + ordered[0].rank, "Four of a Kind")
    else if ordered[0].count == 3 && (assert ordered[0] in ordered; OrderedSecond(ranks); ordered[1].count == 2) then
      Evaluation(6_000_000 + ordered[0].rank, "Full House")
    else if flush then
      Evaluation(5_000_000 + WeightedSum(ranks), "Flush")
    else if straight.Some? then
      Evaluation(4_000_000 + straight.value, "Straight")
    else if ordered[0].count == 3 then
      Evaluation(3_000_000 + ordered[0].rank, "Three of a Kind")
    else if ordered[0].count == 2 && (assert ordered[0] in ordered; OrderedSecond(ranks); ordered[1].count == 2) then
      Evaluation(2_000_000 + Larger(ordered[0].rank, ordered[1].rank), "Two Pair")
    else if ordered[0].count == 2 then
      Evaluation(1_000_000 + ordered[0].rank, "One Pair")
    else
      Evaluation(WeightedSum(ranks), "High Card")
  }

  // ---------------------------------------------------------------------
  // What the score means

  /** Both evaluators name the same category for the same hand. */
  lemma ClassifyCategory(ranks: seq<int>, flush: bool)
    requires |ranks| == 5 && NonIncreasing(ranks)
    ensures Classify(ranks, flush).name == CategoryName(Category(ranks, flush, 0))
  {
    StraightAgrees(ranks, 0);
    QuadsAgree(ranks);
    TripsAgree(ranks);
    LeadingGroup(ranks);
    if Ordered(ranks)[0].count == 3 {
      FullHouseAgree(ranks);
    }
    if !HasCount(ranks, 3) && !HasCount(ranks, 4) {
      PairAgree(ranks);
      TwoPairAgree(ranks);
    }
    var name := Classify(ranks, flush).name;
    match Category(ranks, flush, 0)
    case 8 => assert name == "Straight Flush";
    case 7 => assert name == "Four of a Kind";
    case 6 => assert name == "Full House";
    case 5 => assert name == "Flush";
    case 4 => assert name == "Straight";
    case 3 => assert name == "Three of a Kind";
    case 2 => assert name == "Two Pair";
    case 1 =>
      SecondGroup(ranks);
      assert Ordered(ranks)[0].count == 2 && Ordered(ranks)[1].count != 2;
      assert name == "One Pair";
    case _ => assert name == "High Card";
  }

  /** A straight scores 4_000_000 plus its high rank index, or 8_000_000 plus it when also a flush. */
  lemma StraightScore(ranks: seq<int>, flush: bool, high: int)
    requires |ranks| == 5 && NonIncreasing(ranks)
    requires RunHigh(ranks, 0) == Some(high)
    ensures Classify(ranks, flush).score == (if flush then 8_000_000 else 4_000_000) + high
  {
    StraightAgrees(ranks, 0);
    StraightNoRepeats(ranks, 0);
    LeadingGroup(ranks);
    assert Ordered(ranks)[0].count == 1;
  }

  /**
   * The wheel is a straight whose high index is 3, so it scores 4_000_003
   * (8_000_003 suited) and loses to every other straight, each of which
   * scores at least 4_000_004 (8_000_004 suited), the score of the 6-high
   * straight.
   */
  lemma WheelLowestStraight(r: seq<int>, flush: bool)
    requires |r| == 5 && NonIncreasing(r)
    requires RunHigh(r, 0).Some? && r != Wheel(0)
    requires forall x :: x in r ==> 0 <= x
    ensures Classify(Wheel(0), flush).score == (if flush then 8_000_003 else 4_000_003)
    ensures Classify(r, flush).score >= (if flush then 8_000_004 else 4_000_004)
  {
    StraightScore(Wheel(0), flush, 3);
    assert r[4] in r;
    StraightScore(r, flush, r[0]);
  }

  /** The branch that scores four of a kind: only the rank held four times counts. */
  lemma QuadsScore(ranks: seq<int>, flush: bool, quad: int)
    requires |ranks| == 5 && NonIncreasing(ranks) && Count(ranks, quad) == 4
    ensures Classify(ranks, flush).score == 7_000_000 + quad
  {
    assert HasCount(ranks, 4) by { assert quad in multiset(ranks); }
    StraightNoRepeats(ranks, 0);
    StraightAgrees(ranks, 0);
    QuadsAgree(ranks);
    LeadingGroup(ranks);
    if Ordered(ranks)[0].rank != quad {
      CountTwo(ranks, quad, Ordered(ranks)[0].rank);
    }
  }

  /** The kicker of four of a kind never changes the score. */
  lemma QuadsIgnoreKicker(r1: seq<int>, f1: bool, r2: seq<int>, f2: bool, quad: int)
    requires |r1| == 5 && NonIncreasing(r1) && |r2| == 5 && NonIncreasing(r2)
    requires Count(r1, quad) == 4 && Count(r2, quad) == 4
    ensures Classify(r1, f1).score == Classify(r2, f2).score == 7_000_000 + quad
  {
    QuadsScore(r1, f1, quad);
    QuadsScore(r2, f2, quad);
  }

  /** The branch that scores a full house: only the rank held three times counts. */
  lemma FullHouseScore(ranks: seq<int>, flush: bool, trip: int, pair: int)
    requires |ranks| == 5 && NonIncreasing(ranks)
    requires Count(ranks, trip) == 3 && Count(ranks, pair) == 2
    ensures Classify(ranks, flush).score == 6_000_000 + trip
  {
    assert HasCount(ranks, 2) by { assert pair in multiset(ranks); }
    assert trip in multiset(ranks);
    StraightNoRepeats(ranks, 0);
    StraightAgrees(ranks, 0);
    LeadingGroup(ranks);
    if Ordered(ranks)[0].rank != trip {
      CountTwo(ranks, trip, Ordered(ranks)[0].rank);
    }
    FullHouseAgree(ranks);
  }

  /** The pair of a full house never changes the score. */
  lemma FullHouseIgnoresPair(r1: seq<int>, f1: bool, p1: int, r2: seq<int>, f2: bool, p2: int, trip: int)
    requires |r1| == 5 && NonIncreasing(r1) && |r2| == 5 && NonIncreasing(r2)
    requires Count(r1, trip) == 3 && Count(r1, p1) == 2
    requires Count(r2, trip) == 3 && Count(r2, p2) == 2
    ensures Classify(r1, f1).score == Classify(r2, f2).score == 6_000_000 + trip
  {
    FullHouseScore(r1, f1, trip, p1);
    FullHouseScore(r2, f2, trip, p2);
  }

  /** The branch that scores two pair: only the higher pair counts. */
  lemma TwoPairScore(ranks: seq<int>, flush: bool, high: int, low: int)
    requires |ranks| == 5 && NonIncreasing(ranks)
    requires Count(ranks, high) == 2 && Count(ranks, low) == 2 && low < high
    requires !flush
    ensures Classify(ranks, flush).score == 2_000_000 + high
  {
    assert high in multiset(ranks) && low in multiset(ranks);
    TwoPairCategory(ranks, high, low);
    StraightAgrees(ranks, 0);
    LeadingGroup(ranks);
    PairAgree(ranks);
    SecondGroup(ranks);
    var a, b := Ordered(ranks)[0].rank, Ordered(ranks)[1].rank;
    if a != high && a != low { CountThree(ranks, high, low, a); }
    if b != high && b != low { CountThree(ranks, high, low, b); }
    assert Larger(a, b) == high;
  }

  /** Five ranks with two pairs hold no other repeated rank and no run. */
  lemma TwoPairCategory(ranks: seq<int>, high: int, low: int)
    requires |ranks| == 5 && NonIncreasing(ranks)
    requires Count(ranks, high) == 2 && Count(ranks, low) == 2 && low != high
    ensures !HasCount(ranks, 3) && !HasCount(ranks, 4)
    ensures RunHigh(ranks, 0).None?
  {
    if x :| x in ranks && (Count(ranks, x) == 3 || Count(ranks, x) == 4) {
      CountThree(ranks, high, low, x);
    }
    assert high in multiset(ranks);
    StraightNoRepeats(ranks, 0);
  }

  /** The branch that scores three of a kind: only the rank held three times counts, not the kickers. */
  lemma TripsScore(ranks: seq<int>, flush: bool, trip: int)
    requires |ranks| == 5 && NonIncreasing(ranks)
    requires Category(ranks, flush, 0) == 3 && Count(ranks, trip) == 3
    ensures Classify(ranks, flush).score == 3_000_000 + trip
  {
    ClassifyCategory(ranks, flush);
    LeadingGroup(ranks);
    if Ordered(ranks)[0].rank != trip {
      CountTwo(ranks, trip, Ordered(ranks)[0].rank);
    }
  }

  /** The branch that scores one pair: only the paired rank counts, not the kickers. */
  lemma PairScore(ranks: seq<int>, flush: bool, pair: int)
    requires |ranks| == 5 && NonIncreasing(ranks)
    requires Category(ranks, flush, 0) == 1 && Count(ranks, pair) == 2
    ensures Classify(ranks, flush).score == 1_000_000 + pair
  {
    assert pair in multiset(ranks);
    StraightAgrees(ranks, 0);
    QuadsAgree(ranks);
    TripsAgree(ranks);
    PairAgree(ranks);
    TwoPairAgree(ranks);
    LeadingGroup(ranks);
    SecondGroup(ranks);
  }

  /** The low pair and the kicker of two pair never change the score. */
  lemma TwoPairIgnoresLowPair(r1: seq<int>, l1: int, r2: seq<int>, l2: int, high: int)
    requires |r1| == 5 && NonIncreasing(r1) && |r2| == 5 && NonIncreasing(r2)
    requires Count(r1, high) == 2 && Count(r1, l1) == 2 && l1 < high
    requires Count(r2, high) == 2 && Count(r2, l2) == 2 && l2 < high
    ensures Classify(r1, false).score == Classify(r2, false).score == 2_000_000 + high
  {
    TwoPairScore(r1, false, high, l1);
    TwoPairScore(r2, false, high, l2);
  }

  /** A flush that is no straight scores 5_000_000 plus the weighted sum of its ranks. */
  lemma FlushScore(ranks: seq<int>)
    requires |ranks| == 5 && NonIncreasing(ranks)
    requires Category(ranks, true, 0) == 5
    ensures Classify(ranks, true).score == 5_000_000 + WeightedSum(ranks)
  {
    ClassifyCategory(ranks, true);
  }

  /** A high card hand scores the weighted sum of its ranks. */
  lemma HighCardScore(ranks: seq<int>, flush: bool)
    requires |ranks| == 5 && NonIncreasing(ranks)
    requires Category(ranks, flush, 0) == 0
    ensures Classify(ranks, flush).score == WeightedSum(ranks)
  {
    ClassifyCategory(ranks, flush);
  }

  /** The weighted sum is the polynomial in 100 with the ranks as digits, lowest card highest. */
  lemma WeightedSumOfFive(ranks: seq<int>)
    requires |ranks| == 5
    ensures WeightedSum(ranks) == ranks[0] + 100 * ranks[1] + 10_000 * ranks[2]
                                  + 1_000_000 * ranks[3] + 100_000_000 * ranks[4]
  {
    assert Pow100(1) == 100 && Pow100(2) == 10_000 && Pow100(3) == 1_000_000;
    assert Pow100(4) == 100_000_000;
    assert WeightedSumFrom(ranks, 5) == 0;
    assert WeightedSumFrom(ranks, 4) == 100_000_000 * ranks[4];
    assert WeightedSumFrom(ranks, 3) == 1_000_000 * ranks[3] + 100_000_000 * ranks[4];
    assert WeightedSumFrom(ranks, 2)
           == 10_000 * ranks[2] + 1_000_000 * ranks[3] + 100_000_000 * ranks[4];
    assert WeightedSumFrom(ranks, 1)
           == 100 * ranks[1] + 10_000 * ranks[2] + 1_000_000 * ranks[3] + 100_000_000 * ranks[4];
  }

  /**
   * The bands overlap: a high card hand whose lowest card is a 3 or better
   * outscores every straight flush.
   */
  lemma HighCardAboveStraightFlush(ranks: seq<int>, flush: bool, other: seq<int>)
    requires |ranks| == 5 && NonIncreasing(ranks) && Category(ranks, flush, 0) == 0
    requires forall x :: x in ranks ==> 0 <= x
    requires ranks[4] >= 1
    requires |other| == 5 && NonIncreasing(other) && RunHigh(other, 0).Some?
    requires forall x :: x in other ==> x <= 12
    ensures Classify(other, true).score < Classify(ranks, flush).score
  {
    HighCardScore(ranks, flush);
    HighCardFloor(ranks);
    var high := RunHigh(other, 0).value;
    StraightScore(other, true, high);
    StraightCeiling(other);
  }

  /** Five ranks of at least 0, the lowest at least 1, weigh at least 100000000. */
  lemma HighCardFloor(ranks: seq<int>)
    requires |ranks| == 5 && ranks[4] >= 1
    requires forall x :: x in ranks ==> 0 <= x
    ensures WeightedSum(ranks) >= 100_000_000
  {
    WeightedSumOfFive(ranks);
    assert ranks[0] in ranks && ranks[1] in ranks && ranks[2] in ranks && ranks[3] in ranks;
  }

  /** The top card of a straight is a rank of the hand. */
  lemma StraightCeiling(other: seq<int>)
    requires |other| == 5 && RunHigh(other, 0).Some?
    requires forall x :: x in other ==> x <= 12
    ensures RunHigh(other, 0).value <= 12
  {
    assert other[0] in other;
  }

  // ---------------------------------------------------------------------
  // best_hand: the running best over the 21 five-card selections

  /** The best selection of a hand: its integer score, its five cards and its category name. */
  datatype Best = Best(score: int, hand: seq<Card>, name: string)

  function Entry(combo: seq<Card>): (b: Best)
    requires |combo| == 5
    ensures b.hand == combo && b.score == Evaluate5(combo).score
  {
    var e := Evaluate5(combo);
    Best(e.score, combo, e.name)
  }

  function Entries(combos: seq<seq<Card>>): (es: seq<Best>)
    requires forall i :: 0 <= i < |combos| ==> |combos[i]| == 5
    ensures |es| == |combos|
    ensures forall i :: 0 <= i < |combos| ==> es[i] == Entry(combos[i])
  {
    seq(|combos|, i requires 0 <= i < |combos| => Entry(combos[i]))
  }

  /** The loop of `best_hand`: a later entry replaces the record only with a strictly greater score. */
  function BestOf(entries: seq<Best>): (b: Option<Best>)
    ensures b.None? <==> |entries| == 0
    decreases |entries|
  {
    if |entries| == 0 then None
    else
      var prev := BestOf(entries[..|entries| - 1]);
      var e := entries[|entries| - 1];
      if prev.None? || prev.value.score < e.score then Some(e) else prev
  }

  /** Entry i has the greatest score, and every earlier entry scores strictly less. */
  predicate FirstMaximumAt(entries: seq<Best>, i: int) {
    0 <= i < |entries|
    && (forall j :: 0 <= j < |entries| ==> entries[j].score <= entries[i].score)
    && forall j :: 0 <= j < i ==> entries[j].score < entries[i].score
  }

  /** The recorded entry is the first entry with the greatest score. */
  lemma {:induction false} BestOfIsFirstMaximum(entries: seq<Best>)
    requires |entries| > 0
    ensures exists i :: FirstMaximumAt(entries, i) && BestOf(entries) == Some(entries[i])
    decreases |entries|
  {
    var n := |entries|;
    if n == 1 {
      assert FirstMaximumAt(entries, 0);
    } else {
      var init := entries[..n - 1];
      BestOfIsFirstMaximum(init);
      var i :| FirstMaximumAt(init, i) && BestOf(init) == Some(init[i]);
      if entries[i].score < entries[n - 1].score {
        ReplacesBest(entries, i);
      } else {
        KeepsBest(entries, i);
      }
    }
  }

  /** A strictly greater last entry becomes the first maximum. */
  lemma ReplacesBest(entries: seq<Best>, i: int)
    requires |entries| >= 2 && FirstMaximumAt(entries[..|entries| - 1], i)
    requires entries[i].score < entries[|entries| - 1].score
    ensures FirstMaximumAt(entries, |entries| - 1)
  {
    var n := |entries|;
    forall j | 0 <= j < n - 1
      ensures entries[j].score < entries[n - 1].score
    {
      assert entries[j] == entries[..n - 1][j];
    }
  }

  /** A last entry that is no greater leaves the first maximum where it was. */
  lemma KeepsBest(entries: seq<Best>, i: int)
    requires |entries| >= 2 && FirstMaximumAt(entries[..|entries| - 1], i)
    requires !(entries[i].score < entries[|entries| - 1].score)
    ensures FirstMaximumAt(entries, i)
  {
    var n := |entries|;
    forall j | 0 <= j < n - 1
      ensures entries[j] == entries[..n - 1][j]
    {
    }
  }

  /** `best_hand`: the best five-card selection of the cards (two hole cards and the board at a showdown). */
  function BestHand(cards: seq<Card>): Best
    requires |cards| >= 5
  {
    CombinationsLengths(cards, 5);
    CombinationsNonEmpty(cards, 5);
    BestOf(Entries(Combinations(cards, 5))).value
  }

  /**
   * The best hand is a selection of the cards with its own score, no
   * selection scores more, and every selection listed before it scores less.
   */
  lemma BestHandIsFirstMaximum(cards: seq<Card>)
    requires |cards| >= 5
    ensures BestHand(cards).hand in Combinations(cards, 5)
    ensures |BestHand(cards).hand| == 5
    ensures BestHand(cards) == Entry(BestHand(cards).hand)
    ensures forall j :: 0 <= j < |Combinations(cards, 5)| ==>
              |Combinations(cards, 5)[j]| == 5
              && Evaluate5(Combinations(cards, 5)[j]).score <= BestHand(cards).score
    ensures exists i :: 0 <= i < |Combinations(cards, 5)|
              && BestHand(cards).hand == Combinations(cards, 5)[i]
              && forall j :: 0 <= j < i ==>
                   Evaluate5(Combinations(cards, 5)[j]).score < BestHand(cards).score
  {
    var combos := Combinations(cards, 5);
    CombinationsLengths(cards, 5);
    CombinationsNonEmpty(cards, 5);
    var es := Entries(combos);
    BestOfIsFirstMaximum(es);
    var i :| FirstMaximumAt(es, i) && BestOf(es) == Some(es[i]);
    var best := BestHand(cards);
    assert best == es[i];
    forall j | 0 <= j < |combos| ensures |combos[j]| == 5 && Evaluate5(combos[j]).score <= best.score {
      assert es[j] == Entry(combos[j]);
    }
    forall j | 0 <= j < i ensures Evaluate5(combos[j]).score < best.score {
      assert es[j] == Entry(combos[j]);
    }
  }
}
